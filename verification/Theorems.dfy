/** What every run of the kernel promises, stated of any state it passes through. */
module Theorems {
  import opened KernelTypes
  import opened Scheduler
  import opened WaitGraph
  import opened Ipc
  import opened IpcInv
  import opened Letters
  import opened AsyncSends
  import opened KernelOps
  import opened Syscalls
  import opened Masks
  import opened Lifecycle
  import opened KernelSteps
  import opened Boot
  import opened Progress
  import opened Entries
  import opened Handover
  import opened Runs
  import opened Fates
  import opened ReceiveLimits

  // The properties, each of one state.  Parts shows that the invariant implies them.

  /** Whoever a blocked process waits for is alive, and named by a valid endpoint. */
  ghost predicate WaitsForLive(i: Ipc) {
    forall p :: 0 <= p < |i.procs| ==>
      var x := i.procs[p];
      && (Sending in x.rts ==> NamesLive(i, x.sendTo) && IsOkEndpoint(i, x.sendTo))
      && (Receiving in x.rts && x.getFrom != ANY ==> NamesLive(i, x.getFrom) && IsOkEndpoint(i, x.getFrom))
  }

  /** Nobody is blocked sending to a process that would accept the message. */
  ghost predicate NobodyOverlooked(i: Ipc) {
    forall p, q :: 0 <= p < |i.procs| && 0 <= q < |i.procs| && SendsTo(i, p, q) ==>
      !(Receiving in i.procs[q].rts && (i.procs[q].getFrom == ANY || i.procs[q].getFrom == i.procs[p].endpoint))
  }

  /** Waiting for ANY means an empty caller queue and, if privileged, no pending bit. */
  ghost predicate NothingPendingForAny(i: Ipc) {
    |i.cq| == |i.procs| &&
    forall q :: 0 <= q < |i.procs| && Receiving in i.procs[q].rts && i.procs[q].getFrom == ANY ==>
      && i.cq[q] == [] && i.procs[q].privId < |i.privs|
      && (i.procs[q].privId != USER_PRIV_ID ==> i.privs[i.procs[q].privId].notifyPending == {})
  }

  /** A waiting receiver has an empty delivery slot. */
  ghost predicate ReceiversAreEmpty(i: Ipc) {
    forall p :: 0 <= p < |i.procs| && Receiving in i.procs[p].rts ==> DeliverMsg !in i.procs[p].misc
  }

  /** What a process that called SENDREC finds in its slot is an ordinary message of the
      process it called. */
  ghost predicate RepliesAreReplies(i: Ipc) {
    forall p :: 0 <= p < |i.procs| && ReplyPend in i.procs[p].misc && DeliverMsg in i.procs[p].misc ==>
      i.procs[p].deliverMsg.source == i.procs[p].awaits && i.procs[p].deliverMsg.content.Data?
  }

  /** Element e of table v, if pending for a live process, is permitted and announced. */
  ghost predicate Announced(i: Ipc, v: nat, e: AsynEntry)
    requires v < |i.privs|
  {
    Undone(e) && NamesLive(i, e.dst) ==>
      AsynMsg in i.procs[e.dst.slot].misc && i.procs[e.dst.slot].privId in i.privs[v].ipcTo
  }

  ghost predicate AsyncAnnounced(i: Ipc) {
    forall v, n :: 0 <= v < |i.privs| && 0 <= n < |i.privs[v].asyn| ==> Announced(i, v, i.privs[v].asyn[n])
  }

  /** A process is on a ready list, and then once and on that of its priority, exactly
      when none of its RTS flags is set. */
  ghost predicate ReadyExactly(s: State) {
    && |s.sched.ent| == |s.ipc.procs| && |s.sched.rq| == NR_SCHED_QUEUES
    && (forall q, p: nat :: 0 <= q < NR_SCHED_QUEUES && p < |s.ipc.procs| ==>
          multiset(s.sched.rq[q])[p] == if s.ipc.procs[p].rts == {} && s.sched.ent[p].priority == q then 1 else 0)
    && (forall q, j :: 0 <= q < NR_SCHED_QUEUES && 0 <= j < |s.sched.rq[q]| ==> s.sched.rq[q][j] < |s.ipc.procs|)
  }

  /** The process to run next can run, only IDLE is in the last queue, and priorities
      stay in their bands. */
  ghost predicate ChoiceIsReady(s: State) {
    && Current(s.sched) < |s.ipc.procs| == |s.sched.ent| && s.ipc.procs[Current(s.sched)].rts == {}
    && |s.sched.rq| == NR_SCHED_QUEUES && s.sched.rq[IDLE_Q] == [IDLE]
    && forall p :: 0 <= p < |s.sched.ent| && p != IDLE ==>
         s.sched.ent[p].maxPriority <= s.sched.ent[p].priority <= IDLE_Q - 1
  }

  lemma CoreParts(i: Ipc)
    requires CoreInv(i) && PrivInv(i)
    ensures WaitsForLive(i) && NobodyOverlooked(i) && NothingPendingForAny(i)
    ensures ReceiversAreEmpty(i) && RepliesAreReplies(i)
  {
    forall p | 0 <= p < |i.procs|
      ensures var x := i.procs[p];
              && (Sending in x.rts ==> NamesLive(i, x.sendTo) && IsOkEndpoint(i, x.sendTo))
              && (Receiving in x.rts && x.getFrom != ANY ==> NamesLive(i, x.getFrom) && IsOkEndpoint(i, x.getFrom))
      ensures Receiving in i.procs[p].rts ==> DeliverMsg !in i.procs[p].misc
      ensures ReplyPend in i.procs[p].misc && DeliverMsg in i.procs[p].misc ==>
                i.procs[p].deliverMsg.source == i.procs[p].awaits && i.procs[p].deliverMsg.content.Data?
    {
      assert NamesOk(i, p) && WaitOk(i, p);
    }
    forall p, q | 0 <= p < |i.procs| && 0 <= q < |i.procs| && SendsTo(i, p, q)
      ensures !(Receiving in i.procs[q].rts && (i.procs[q].getFrom == ANY || i.procs[q].getFrom == i.procs[p].endpoint))
    {
      assert NamesOk(i, p) && NamesOk(i, q) && Live(i.procs[q]);
      assert p in i.cq[q] && WaitOk(i, q);
    }
    forall q | 0 <= q < |i.procs| && Receiving in i.procs[q].rts && i.procs[q].getFrom == ANY
      ensures i.cq[q] == [] && i.procs[q].privId < |i.privs|
      ensures i.procs[q].privId != USER_PRIV_ID ==> i.privs[i.procs[q].privId].notifyPending == {}
    {
      assert WaitOk(i, q) && PrivOk(i, q);
    }
  }

  lemma AsyncParts(i: Ipc)
    requires AsyncInv(i)
    ensures AsyncAnnounced(i) && Distinct(i.hist.asynSent)
  {
    forall v, n | 0 <= v < |i.privs| && 0 <= n < |i.privs[v].asyn| ensures Announced(i, v, i.privs[v].asyn[n]) {
      assert TableOk(i, v);
      assert Undone(i.privs[v].asyn[n]) ==> ElementOk(i, v, i.privs[v].asyn[n]);
    }
  }

  lemma SchedParts(s: State)
    requires StateShape(s) && SchedInv(s.sched, Ready(s.ipc))
    ensures ReadyExactly(s) && ChoiceIsReady(s)
  {
    forall q, p: nat | 0 <= q < NR_SCHED_QUEUES && p < |s.ipc.procs|
      ensures multiset(s.sched.rq[q])[p] == if s.ipc.procs[p].rts == {} && s.sched.ent[p].priority == q then 1 else 0
    {
      CountDistinct(s.sched.rq[q], p);
      assert p in Ready(s.ipc) <==> s.ipc.procs[p].rts == {};
    }
    OnlyIdle(s.sched, Ready(s.ipc));
  }

  lemma OnlyIdle(s: Sched, run: set<nat>)
    requires SchedInv(s, run)
    ensures s.rq[IDLE_Q] == [IDLE]
  {
    var l := s.rq[IDLE_Q];
    assert IDLE in l;
    assert |l| > 1 ==> l[0] != l[1];
    forall j | 0 <= j < |l| ensures l[j] == IDLE {
      assert l[j] in s.rq[IDLE_Q];
      assert l[j] in run && s.ent[l[j]].priority == IDLE_Q;
    }
  }

  lemma {:induction false} CountDistinct(s: seq<nat>, x: nat)
    requires Distinct(s)
    ensures multiset(s)[x] == if x in s then 1 else 0
  {
    if s != [] {
      var t := s[..|s| - 1];
      CountDistinct(t, x);
      assert s == t + [s[|s| - 1]];
    }
  }

  // ---------------------------------------------------------- in every state of a run

  /** No process ever waits for itself through others, and nobody waits for the dead, so
      deadlock() ends and okendpt never panics; no wakeup is lost; no message can be
      overwritten in its slot; a SENDREC is answered by its partner. */
  lemma MessagesEverywhere(tr: seq<State>, steps: seq<Step>, k: nat)
    requires IsRun(tr, steps) && k < |tr|
    ensures Acyclic(WaitsFor(tr[k].ipc)) && WaitsForLive(tr[k].ipc)
    ensures NobodyOverlooked(tr[k].ipc) && NothingPendingForAny(tr[k].ipc)
    ensures ReceiversAreEmpty(tr[k].ipc) && RepliesAreReplies(tr[k].ipc)
  {
    hide IsRun, CoreInv, PrivInv, AsyncInv, LetterInv, VitalInv, SchedInv, MayAnswer, Acyclic, WaitsForLive,
      NobodyOverlooked,
      NothingPendingForAny, ReceiversAreEmpty, RepliesAreReplies;
    RunKeeps(tr, steps, k);
    CoreParts(tr[k].ipc);
  }

  /** Asynchronous sends: nothing is sent twice, and whatever is pending for a live
      process is permitted and that process has MF_ASYNMSG set. */
  lemma AsyncEverywhere(tr: seq<State>, steps: seq<Step>, k: nat)
    requires IsRun(tr, steps) && k < |tr|
    ensures AsyncAnnounced(tr[k].ipc) && Distinct(tr[k].ipc.hist.asynSent)
  {
    hide IsRun, CoreInv, PrivInv, AsyncInv, LetterInv, VitalInv, SchedInv, MayAnswer, AsyncAnnounced;
    RunKeeps(tr, steps, k);
    AsyncParts(tr[k].ipc);
  }

  /** The ready lists hold exactly the runnable processes, and the one chosen is among
      them. */
  lemma SchedulerEverywhere(tr: seq<State>, steps: seq<Step>, k: nat)
    requires IsRun(tr, steps) && k < |tr|
    ensures ReadyExactly(tr[k]) && ChoiceIsReady(tr[k])
  {
    hide IsRun, MessageInv, SchedInv, MayAnswer, ReadyExactly, ChoiceIsReady;
    RunKeeps(tr, steps, k);
    SchedParts(tr[k]);
  }

  /** Every process in use has a positive quantum and is scheduled by the flags of its own
      privilege structure. */
  lemma EntriesEverywhere(tr: seq<State>, steps: seq<Step>, k: nat)
    requires IsRun(tr, steps) && k < |tr|
    ensures EntriesOk(tr[k])
  {
    hide IsRun, KernelInv, MayAnswer, EntriesOk;
    RunKeeps(tr, steps, k);
  }

  /** In every state of every run, (p_priority - p_max_priority) + 1 passes of balance_queues
      with nothing in between bring a process in use, other than IDLE, to its maximum
      priority. */
  lemma RecoveryEverywhere(tr: seq<State>, steps: seq<Step>, k: nat, p: nat, n: nat)
    requires IsRun(tr, steps) && k < |tr| && p < |tr[k].ipc.procs| == |tr[k].sched.ent| && p != IDLE
    requires SlotFree !in tr[k].ipc.procs[p].rts
    requires n >= tr[k].sched.ent[p].priority - tr[k].sched.ent[p].maxPriority + 1
    ensures Shape(tr[k].sched)
    ensures Balances(tr[k].sched, Ready(tr[k].ipc), InUse(tr[k].ipc), n).ent[p].priority ==
            tr[k].sched.ent[p].maxPriority
  {
    hide IsRun, MessageInv, SchedInv, MayAnswer;
    RunKeeps(tr, steps, k);
    assert EntryOk(tr[k], p);
    PriorityRecovery(tr[k].sched, Ready(tr[k].ipc), InUse(tr[k].ipc), p, n);
  }

  /** Whoever may be sent to may answer, unless it is a kernel task, and nobody may send
      to itself. */
  lemma MasksEverywhere(tr: seq<State>, steps: seq<Step>, k: nat)
    requires IsRun(tr, steps) && k < |tr|
    ensures MayAnswer(tr[k].ipc)
    ensures forall v :: 0 <= v < |tr[k].ipc.privs| ==> v !in tr[k].ipc.privs[v].ipcTo
  {
    hide IsRun, CoreInv, AsyncInv, LetterInv, SchedInv, MayAnswer;
    RunKeeps(tr, steps, k);
  }

  /** How often letter n occurs among the deliveries. */
  function Times(d: seq<Delivery>, n: nat): nat {
    if d == [] then 0 else Times(d[..|d| - 1], n) + (if d[|d| - 1].id == n then 1 else 0)
  }

  lemma {:induction false} TimesAtMostOnce(d: seq<Delivery>, n: nat)
    requires forall a, b :: 0 <= a < b < |d| ==> d[a].id != d[b].id
    ensures Times(d, n) == if exists a :: 0 <= a < |d| && d[a].id == n then 1 else 0
  {
    if d != [] {
      var e := d[..|d| - 1];
      TimesAtMostOnce(e, n);
      assert forall a :: 0 <= a < |e| ==> e[a] == d[a];
      if d[|d| - 1].id == n {
        assert forall a :: 0 <= a < |e| ==> e[a].id != n;
      }
    }
  }

  /** Every live process' caller queue holds, once each, exactly the processes sending to its owner, in the
      order in which they blocked. */
  lemma QueuesEverywhere(tr: seq<State>, steps: seq<Step>, k: nat)
    requires IsRun(tr, steps) && k < |tr|
    ensures QueuesExact(tr[k].ipc)
  {
    hide IsRun, CoreInv, PrivInv, AsyncInv, LetterInv, VitalInv, SchedInv, MayAnswer, QueuesExact;
    RunKeeps(tr, steps, k);
    QueueParts(tr[k].ipc);
  }

  ghost predicate QueuesExact(i: Ipc) {
    |i.cq| == |i.procs| &&
    forall q :: 0 <= q < |i.procs| && Live(i.procs[q]) ==>
      && (forall p: nat :: p < |i.procs| ==> multiset(i.cq[q])[p] == if SendsTo(i, p, q) then 1 else 0)
      && (forall a, b :: 0 <= a < b < |i.cq[q]| ==> Before(i, i.cq[q][a], i.cq[q][b]))
  }

  lemma QueueParts(i: Ipc)
    requires CoreInv(i) && LetterInv(i)
    ensures QueuesExact(i)
  {
    forall q, p: nat | 0 <= q < |i.procs| && Live(i.procs[q]) && p < |i.procs|
      ensures multiset(i.cq[q])[p] == if SendsTo(i, p, q) then 1 else 0
    {
      CountDistinct(i.cq[q], p);
    }
  }

  /** A letter accepted by state a is, in every later state b, the same letter, and
      exactly one of delivered once, dropped, and held by one live process that is in
      the caller queue of the letter's addressee.  If it was delivered, it was in the slot of
      its addressee, and stayed there until a dispatch handed it over. */
  lemma ExactlyOnce(tr: seq<State>, steps: seq<Step>, a: nat, b: nat, n: nat)
    requires IsRun(tr, steps) && a <= b < |tr| && n < |tr[a].ipc.hist.letters|
    ensures var h := tr[b].ipc.hist; n < |h.letters| && h.letters[n] == tr[a].ipc.hist.letters[n]
    ensures var h := tr[b].ipc.hist;
            Times(h.delivered, n) + (if n in h.dropped then 1 else 0) +
            (if exists p: nat :: Holds(tr[b].ipc, p, n) then 1 else 0) == 1
    ensures forall p, q: nat :: Holds(tr[b].ipc, p, n) && Holds(tr[b].ipc, q, n) ==> p == q
    ensures forall p: nat :: Holds(tr[b].ipc, p, n) ==> Queued(tr[b].ipc, p, n)
    ensures forall d: nat :: d < |tr[b].ipc.hist.delivered| && tr[b].ipc.hist.delivered[d].id == n ==>
              DeliveredRight(tr[a].ipc.hist.letters[n], tr[b].ipc.hist.delivered[d]) && Arrived(tr, steps, b, d)
  {
    hide IsRun, CoreInv, GraphInv, PrivInv, AsyncInv, LetterInv, VitalInv, SchedInv, MayAnswer, PostInv, EntriesOk,
      Times,
      Holds, Queued, LetterHandedAt;
    RunKeeps(tr, steps, b);
    RunGrows(tr, steps, a, b);
    LetterParts(tr[b].ipc, n);
    forall d: nat | d < |tr[b].ipc.hist.delivered| && tr[b].ipc.hist.delivered[d].id == n
      ensures Arrived(tr, steps, b, d)
    {
      LettersArrive(tr, steps, b, d);
    }
  }

  /** Some step put the message of the d-th delivery into the slot of its receiver, where it
      stayed until it was handed over. */
  ghost predicate Arrived(tr: seq<State>, steps: seq<Step>, b: nat, d: nat) {
    exists k: nat :: LetterHandedAt(tr, steps, k, b, d)
  }

  lemma LetterParts(i: Ipc, n: nat)
    requires CoreInv(i) && LetterInv(i) && n < |i.hist.letters|
    ensures Times(i.hist.delivered, n) + (if n in i.hist.dropped then 1 else 0) +
            (if exists p: nat :: Holds(i, p, n) then 1 else 0) == 1
    ensures forall p, q: nat :: Holds(i, p, n) && Holds(i, q, n) ==> p == q
    ensures forall p: nat :: Holds(i, p, n) ==> Queued(i, p, n)
    ensures forall d :: 0 <= d < |i.hist.delivered| && i.hist.delivered[d].id == n ==>
              DeliveredRight(i.hist.letters[n], i.hist.delivered[d])
  {
    hide CoreInv;
    TimesAtMostOnce(i.hist.delivered, n);
    assert Accounted(i, n);
    forall p: nat | Holds(i, p, n) ensures Queued(i, p, n) {
      HeldIsQueued(i, p, n);
    }
  }

  /** The letter went to its addressee unchanged and under its sender's name. */
  ghost predicate DeliveredRight(l: Letter, d: Delivery) {
    d.to == l.to && d.message.source == l.from && d.message.content == l.content
  }

  /** p is a live process in the caller queue of the addressee of letter n. */
  ghost predicate Queued(i: Ipc, p: nat, n: nat) {
    && p < |i.procs| && n < |i.hist.letters| && Live(i.procs[p])
    && var l := i.hist.letters[n];
    l.from == i.procs[p].endpoint && l.to.Ep? && 0 <= l.to.slot < |i.cq| && p in i.cq[l.to.slot]
  }

  lemma HeldIsQueued(i: Ipc, p: nat, n: nat)
    requires CoreInv(i) && LetterInv(i) && Holds(i, p, n)
    ensures Queued(i, p, n)
  {
    assert NamesOk(i, p) && HoldsLetter(i, p);
    var q: nat := i.procs[p].sendTo.slot;
    assert SendsTo(i, p, q);
  }

  /** One letter is delivered to c: the oldest of those that were waiting for it. */
  ghost predicate TookOldest(i: Ipc, j: Ipc, c: nat) {
    && c < |i.procs| == |i.cq| && |j.hist.delivered| == |i.hist.delivered| + 1
    && var d := j.hist.delivered[|i.hist.delivered|];
    && d.to == i.procs[c].endpoint && (exists p: nat :: p in i.cq[c] && Holds(i, p, d.id))
    && forall p: nat :: p in i.cq[c] ==> p < |i.procs| && d.id <= i.procs[p].sendId
  }

  /** In every run, a RECEIVE from ANY that passes its checks, with senders waiting and no
      notification pending, takes the oldest letter. */
  lemma OldestFirst(tr: seq<State>, steps: seq<Step>, k: nat, t: Trap)
    requires IsRun(tr, steps) && k < |steps| && steps[k] == Call(t)
    requires t.callNr == RECEIVE && t.ep == ANY && t.io.receiveMapped
    ensures KernelInv(tr[k]) && CanTrap(tr[k]) && OldestTaken(tr[k], t, tr[k + 1])
  {
    hide MayAnswer, MessageInv, SchedInv, EntriesOk, SysCall, CheckTrap, BootState, OldestTaken;
    RunKeeps(tr, steps, k);
    assert tr[k + 1] == After(tr[k], steps[k]);
    OldestAt(tr[k], t);
  }

  /** If t passes its checks, senders are waiting and no notification is pending, it takes the
      oldest letter. */
  ghost predicate OldestTaken(s: State, t: Trap, r: State)
    requires KernelInv(s) && CanTrap(s)
  {
    var i, c := s.ipc, s.sched.procPtr;
    CheckTrap(s, t) == OK && i.privs[i.procs[c].privId].notifyPending == {} && i.cq[c] != [] ==> TookOldest(i, r.ipc, c)
  }

  lemma OldestAt(s: State, t: Trap)
    requires KernelInv(s) && CanTrap(s) && t.callNr == RECEIVE && t.ep == ANY && t.io.receiveMapped
    ensures OldestTaken(s, t, SysCall(s, t).0)
  {
    hide MessageInv, SchedInv, CheckTrap, ReceiveNow;
    GraphClosed(s);
    var i, c := s.ipc, s.sched.procPtr;
    if CheckTrap(s, t) == OK && i.privs[i.procs[c].privId].notifyPending == {} && i.cq[c] != [] {
      var s0 := s.(ipc := ClearReply(i, c));
      MarkReplyInv(s, c, t.ep);
      TakesOldest(s0, c, t.io);
      var d := ReceiveNow(s0, c, ANY, false, t.io).0.ipc.hist.delivered[|i.hist.delivered|];
      var p: nat :| p in s0.ipc.cq[c] && Holds(s0.ipc, p, d.id);
      assert Holds(i, p, d.id);
    }
  }

  /** After a dispatch, the process that is about to run may trap, unless it is IDLE. */
  lemma DispatchedMayTrap(tr: seq<State>, steps: seq<Step>, k: nat)
    requires IsRun(tr, steps) && k < |steps| && steps[k].Dispatch?
    ensures KernelInv(tr[k + 1]) && (tr[k + 1].sched.procPtr != IDLE ==> CanTrap(tr[k + 1]))
  {
    hide MayAnswer, KernelInv, EntriesOk, SchedCheck, BootState;
    RunKeeps(tr, steps, k);
    RunKeeps(tr, steps, k + 1);
    assert tr[k + 1] == After(tr[k], steps[k]);
    SchedCheckInv(tr[k], steps[k].faults);
    assert tr[k + 1].sched.procPtr in Ready(tr[k + 1].ipc);
  }

  /** What has been delivered or dropped stays so, in the same order. */
  lemma FateIsFinal(tr: seq<State>, steps: seq<Step>, a: nat, b: nat)
    requires IsRun(tr, steps) && a <= b < |tr|
    ensures tr[a].ipc.hist.delivered <= tr[b].ipc.hist.delivered
    ensures tr[a].ipc.hist.dropped <= tr[b].ipc.hist.dropped
    ensures tr[a].ipc.hist.asynSent <= tr[b].ipc.hist.asynSent
  {
    RunGrows(tr, steps, a, b);
  }

  /** A letter is dropped only when a process loses its endpoint, and then it is from or to
      that process. */
  lemma OnlyDeathDrops(tr: seq<State>, steps: seq<Step>, k: nat, n: nat)
    requires IsRun(tr, steps) && k < |steps|
    requires n in tr[k + 1].ipc.hist.dropped && n !in tr[k].ipc.hist.dropped
    ensures steps[k].Die? || steps[k].Leave?
    ensures var rc := steps[k].rc;
            rc < |tr[k].ipc.procs| && n < |tr[k].ipc.hist.letters|
            && var l := tr[k].ipc.hist.letters[n]; tr[k].ipc.procs[rc].endpoint in {l.from, l.to}
  {
    hide MayAnswer, KernelInv, After, Enabled, BootState;
    RunKeeps(tr, steps, k);
    assert tr[k + 1] == After(tr[k], steps[k]);
    StepDrops(tr[k], steps[k], n);
  }

  lemma StepDrops(s: State, step: Step, n: nat)
    requires KernelInv(s) && Enabled(s, step)
    requires n in After(s, step).ipc.hist.dropped && n !in s.ipc.hist.dropped
    ensures step.Die? || step.Leave?
    ensures step.rc < |s.ipc.procs| && OfTheDead(s.ipc, step.rc, n)
  {
    hide KernelInv, ClearEndpoint;
    if step.Allow? || step.Revoke? {
      MaskKeepsHistory(s, step);
    } else if step.Die? || step.Leave? {
      var rc := step.rc;
      assert After(s, step).ipc.hist == ClearEndpoint(s, rc).ipc.hist by { DeadHistory(s, step); }
      DeadDrop(s, rc, n);
    } else {
      StepAdvance(s, step);
      assert false;
    }
  }

  ghost predicate OfTheDead(i: Ipc, rc: nat, n: nat)
    requires rc < |i.procs|
  {
    n < |i.hist.letters| && i.procs[rc].endpoint in {i.hist.letters[n].from, i.hist.letters[n].to}
  }

  lemma MaskKeepsHistory(s: State, step: Step)
    requires KernelInv(s) && Enabled(s, step) && (step.Allow? || step.Revoke?)
    ensures After(s, step).ipc.hist == s.ipc.hist
  {
  }

  lemma DeadHistory(s: State, step: Step)
    requires KernelInv(s) && Enabled(s, step) && (step.Die? || step.Leave?)
    ensures step.rc < |s.ipc.procs| && SlotFree !in s.ipc.procs[step.rc].rts
    ensures After(s, step).ipc.hist == ClearEndpoint(s, step.rc).ipc.hist
  {
    hide ClearEndpoint;
  }

  lemma DeadDrop(s: State, rc: nat, n: nat)
    requires KernelInv(s) && rc < |s.ipc.procs| && SlotFree !in s.ipc.procs[rc].rts
    requires n in ClearEndpoint(s, rc).ipc.hist.dropped && n !in s.ipc.hist.dropped
    ensures OfTheDead(s.ipc, rc, n)
  {
    hide ClearEndpoint, CoreInv, GraphInv, PrivInv, AsyncInv, SchedInv;
    var i, j := s.ipc, ClearEndpoint(s, rc).ipc;
    ClearEndpointGone(s, rc);
    ToldMembers(i, j.procs[rc], rc);
    var more := DroppedFrom(i.procs[rc := j.procs[rc]], i.procs[rc].endpoint, 0);
    if n in more {
      assert HeldFor(i, rc, n);
      var x :| 0 <= x < |i.procs| && x != rc && Drops(i.procs[x], i.procs[rc].endpoint) && i.procs[x].sendId == n;
      assert HoldsLetter(i, x);
    } else {
      assert HoldsLetter(i, rc);
    }
  }

  /** No step overwrites a message that has not been handed over yet. */
  lemma SlotNeverOverwritten(tr: seq<State>, steps: seq<Step>, k: nat, p: nat)
    requires IsRun(tr, steps) && k < |steps| && p < |tr[k].ipc.procs|
    requires SlotFree !in tr[k].ipc.procs[p].rts && DeliverMsg in tr[k].ipc.procs[p].misc
    ensures p < |tr[k + 1].ipc.procs|
    ensures DeliverMsg in tr[k + 1].ipc.procs[p].misc ==>
              tr[k + 1].ipc.procs[p].deliverMsg == tr[k].ipc.procs[p].deliverMsg
  {
    hide MayAnswer, KernelInv, After, Enabled, BootState;
    RunKeeps(tr, steps, k);
    assert tr[k + 1] == After(tr[k], steps[k]);
    StepKeepsSlot(tr[k], steps[k], p);
  }

  lemma StepKeepsSlot(s: State, step: Step, p: nat)
    requires KernelInv(s) && Enabled(s, step) && p < |s.ipc.procs|
    requires SlotFree !in s.ipc.procs[p].rts && DeliverMsg in s.ipc.procs[p].misc
    ensures var t := After(s, step);
            && p < |t.ipc.procs|
            && (DeliverMsg in t.ipc.procs[p].misc ==> t.ipc.procs[p].deliverMsg == s.ipc.procs[p].deliverMsg)
  {
    assert WaitOk(s.ipc, p);
    hide KernelInv;
    if step.Allow? || step.Revoke? {
      MaskKeepsSlot(s, step);
    } else if step.Spawn? {
      SpawnKeepsSlot(s, step, p);
    } else {
      StepAdvance(s, step);
      hide After;
      assert SlotKept(s.ipc.procs[p], After(s, step).ipc.procs[p]);
    }
  }

  lemma MaskKeepsSlot(s: State, step: Step)
    requires KernelInv(s) && Enabled(s, step) && (step.Allow? || step.Revoke?)
    ensures After(s, step).ipc.procs == s.ipc.procs
  {
  }

  lemma SpawnKeepsSlot(s: State, step: Step, p: nat)
    requires KernelInv(s) && Enabled(s, step) && step.Spawn?
    requires p < |s.ipc.procs| && SlotFree !in s.ipc.procs[p].rts
    ensures p < |After(s, step).ipc.procs| && After(s, step).ipc.procs[p] == s.ipc.procs[p]
  {
  }
}
