/** The ready queues of kernel/proc.c: sched, enqueue, dequeue, pick_proc and
    balance_queues as functions of the scheduling state. */
module Scheduler {
  import opened KernelTypes

  /** The scheduling fields of struct proc; the last two come from s_flags of
      the process' privilege structure. */
  datatype Entry = Entry(
    priority: nat, maxPriority: nat, ticksLeft: int, quantum: int,
    preemptible: bool, billable: bool)

  /** rq[q] is the list that starts at rdy_head[q]. */
  datatype Sched = Sched(
    ent: seq<Entry>, rq: seq<seq<nat>>,
    procPtr: nat, nextPtr: Option<nat>, billPtr: nat)

  predicate Shape(s: Sched) {
    && |s.rq| == NR_SCHED_QUEUES
    && s.procPtr < |s.ent|
    && s.billPtr < |s.ent|
    && (s.nextPtr.Some? ==> s.nextPtr.value < |s.ent|)
    && (forall p :: 0 <= p < |s.ent| ==> s.ent[p].priority < NR_SCHED_QUEUES)
    && (forall q, k :: 0 <= q < |s.rq| && 0 <= k < |s.rq[q]| ==> s.rq[q][k] < |s.ent|)
  }

  /** The process that the next kernel exit starts. */
  function Current(s: Sched): nat {
    if s.nextPtr.Some? then s.nextPtr.value else s.procPtr
  }

  // ---------------------------------------------------------------- operations

  /** sched(): a process without time left gets a new quantum and one priority
      less; a process with time left goes to the front. */
  function Policy(e: Entry): (r: (Entry, bool)) {
    if e.ticksLeft > 0 then (e, true)
    else (e.(ticksLeft := e.quantum,
             priority := if e.priority < IDLE_Q - 1 then e.priority + 1 else e.priority), false)
  }

  /** The first non-empty queue at or after q, or NR_SCHED_QUEUES. */
  function FirstReady(rq: seq<seq<nat>>, q: nat): (r: nat)
    requires q <= |rq|
    ensures q <= r <= |rq|
    ensures r < |rq| ==> rq[r] != []
    ensures forall j :: q <= j < r ==> rq[j] == []
    decreases |rq| - q
  {
    if q == |rq| || rq[q] != [] then q else FirstReady(rq, q + 1)
  }

  /** pick_proc(); with every queue empty the kernel panics, and the state is
      left as it is here. */
  function PickProc(s: Sched): (r: Sched)
    requires Shape(s)
    ensures Shape(r)
  {
    var q := FirstReady(s.rq, 0);
    if q == |s.rq| then s
    else
      var p := s.rq[q][0];
      s.(nextPtr := Some(p), billPtr := if s.ent[p].billable then p else s.billPtr)
  }

  function Insert(l: seq<nat>, p: nat, front: bool): seq<nat> {
    if front then [p] + l else l + [p]
  }

  function Enqueue(s: Sched, p: nat): (r: Sched)
    requires Shape(s) && p < |s.ent|
    ensures Shape(r) && |r.ent| == |s.ent| && r.procPtr == s.procPtr
  {
    var (e, front) := Policy(s.ent[p]);
    var s1 := s.(ent := s.ent[p := e],
                 rq := s.rq[e.priority := Insert(s.rq[e.priority], p, front)]);
    var run := s1.ent[s1.procPtr];
    if run.priority > e.priority && run.preemptible then PickProc(s1) else s1
  }

  function Dequeue(s: Sched, p: nat): (r: Sched)
    requires Shape(s) && p < |s.ent|
    ensures Shape(r) && r.ent == s.ent && r.procPtr == s.procPtr
  {
    var q := s.ent[p].priority;
    if p in s.rq[q] then
      RemoveAtElements(s.rq[q], IndexOf(s.rq[q], p));
      var s1 := s.(rq := s.rq[q := RemoveAt(s.rq[q], IndexOf(s.rq[q], p))]);
      if p == s.procPtr || s.nextPtr == Some(p) then PickProc(s1) else s1
    else s
  }

  // -------------------------------------------------------- ready-queue invariant

  /** run is the set of processes whose p_rts_flags are zero: each is on exactly
      one list, the one of its priority, once, and nothing else is on a list. */
  ghost predicate ReadyInv(s: Sched, run: set<nat>) {
    && Shape(s)
    && (forall p :: p in run ==> p < |s.ent|)
    && (forall q, p :: 0 <= q < |s.rq| ==>
          (p in s.rq[q] <==> p in run && s.ent[p].priority == q))
    && (forall q :: 0 <= q < |s.rq| ==> Distinct(s.rq[q]))
  }

  /** Only IDLE is ever in IDLE_Q, and nobody else leaves its priority band. */
  ghost predicate PriorityInv(s: Sched) {
    && IDLE < |s.ent|
    && s.ent[IDLE].priority == IDLE_Q == s.ent[IDLE].maxPriority
    && (forall p :: 0 <= p < |s.ent| && p != IDLE ==>
          s.ent[p].maxPriority <= s.ent[p].priority <= IDLE_Q - 1)
  }

  /** The whole scheduler invariant. */
  ghost predicate SchedInv(s: Sched, run: set<nat>) {
    && ReadyInv(s, run)
    && PriorityInv(s)
    && IDLE in run
    && Current(s) in run
  }

  /** pick_proc() finds a process, the best one, whenever anything is ready. */
  lemma PickProcChoice(s: Sched, run: set<nat>)
    requires ReadyInv(s, run) && run != {}
    ensures FirstReady(s.rq, 0) < |s.rq|
    ensures ReadyInv(PickProc(s), run)
    ensures PickProc(s).nextPtr.Some? && Current(PickProc(s)) in run
    ensures forall p :: p in run ==> s.ent[Current(PickProc(s))].priority <= s.ent[p].priority
    ensures PickProc(s).ent == s.ent && PickProc(s).rq == s.rq && PickProc(s).procPtr == s.procPtr
  {
    var f := FirstReady(s.rq, 0);
    var r :| r in run;
    assert r in s.rq[s.ent[r].priority];
    assert s.rq[f][0] in s.rq[f];
    forall p | p in run ensures f <= s.ent[p].priority {
      assert p in s.rq[s.ent[p].priority];
    }
  }

  lemma PickProcMember(s: Sched, run: set<nat>)
    requires ReadyInv(s, run)
    ensures ReadyInv(PickProc(s), run)
    ensures PickProc(s) == s || Current(PickProc(s)) in run
  {
    var f := FirstReady(s.rq, 0);
    if f < |s.rq| {
      assert s.rq[f][0] in s.rq[f];
    }
  }

  lemma InsertElements(l: seq<nat>, p: nat, front: bool)
    ensures forall x :: x in Insert(l, p, front) <==> x in l || x == p
    ensures Distinct(l) && p !in l ==> Distinct(Insert(l, p, front))
  {
    var r := Insert(l, p, front);
    assert |r| == |l| + 1;
    if front {
      assert forall i :: 0 <= i < |l| ==> r[i + 1] == l[i];
      assert r[0] == p;
    } else {
      assert forall i :: 0 <= i < |l| ==> r[i] == l[i];
      assert r[|l|] == p;
    }
  }

  /** enqueue of a process that is not on a list. */
  lemma EnqueueInv(s: Sched, run: set<nat>, p: nat)
    requires ReadyInv(s, run) && PriorityInv(s) && IDLE in run + {p}
    requires p < |s.ent| && p !in run
    requires Current(s) in run + {p}
    ensures SchedInv(Enqueue(s, p), run + {p})
  {
    var (e, front) := Policy(s.ent[p]);
    var q := e.priority;
    var s1 := s.(ent := s.ent[p := e], rq := s.rq[q := Insert(s.rq[q], p, front)]);
    InsertElements(s.rq[q], p, front);
    assert ReadyInv(s1, run + {p});
    if s1.ent[s1.procPtr].priority > q && s1.ent[s1.procPtr].preemptible {
      PickProcChoice(s1, run + {p});
    }
  }

  /** dequeue of any process, on a list or not. */
  lemma DequeueReady(s: Sched, run: set<nat>, p: nat)
    requires ReadyInv(s, run) && p < |s.ent| && Current(s) in run
    ensures ReadyInv(Dequeue(s, p), run - {p})
    ensures Current(Dequeue(s, p)) in run
    ensures run != {p} ==> Current(Dequeue(s, p)) in run - {p}
  {
    var q := s.ent[p].priority;
    if p in s.rq[q] {
      var k := IndexOf(s.rq[q], p);
      RemoveAtElements(s.rq[q], k);
      var s1 := s.(rq := s.rq[q := RemoveAt(s.rq[q], k)]);
      assert ReadyInv(s1, run - {p});
      if p == s.procPtr || s.nextPtr == Some(p) {
        PickProcMember(s1, run - {p});
        if run - {p} != {} {
          PickProcChoice(s1, run - {p});
        }
      }
    } else {
      assert p !in run;
    }
  }

  /** dequeue of any process.  Without IDLE on its list the lists are still right, and
      something else is chosen if there is anything else. */
  lemma DequeueInv(s: Sched, run: set<nat>, p: nat)
    requires SchedInv(s, run) && p < |s.ent|
    ensures ReadyInv(Dequeue(s, p), run - {p}) && PriorityInv(Dequeue(s, p))
    ensures run != {p} ==> Current(Dequeue(s, p)) in run - {p}
    ensures p != IDLE ==> SchedInv(Dequeue(s, p), run - {p})
  {
    DequeueReady(s, run, p);
    assert p != IDLE ==> IDLE in run - {p};
  }

  // ------------------------------------------------------- the choice of process

  /** No ready process has a better (smaller) priority than the one about to run. */
  ghost predicate Unoutranked(s: Sched, run: set<nat>)
    requires Shape(s) && forall p :: p in run ==> p < |s.ent|
  {
    forall p :: p in run ==> s.ent[Current(s)].priority <= s.ent[p].priority
  }

  /** enqueue() calls pick_proc() on the running process' priority, not on that of
      the process already chosen.  The choice therefore stays the best one exactly
      when it is re-made or already good enough for the newcomer. */
  lemma EnqueueChoiceExact(s: Sched, run: set<nat>, p: nat)
    requires SchedInv(s, run) && p < |s.ent| && p !in run && Unoutranked(s, run)
    ensures SchedInv(Enqueue(s, p), run + {p})
    ensures var e := Policy(s.ent[p]).0;
            var current := if s.procPtr == p then e else s.ent[s.procPtr];
            Unoutranked(Enqueue(s, p), run + {p}) <==>
            (current.priority > e.priority && current.preemptible)
            || s.ent[Current(s)].priority <= e.priority
  {
    EnqueueInv(s, run, p);
    var (e, front) := Policy(s.ent[p]);
    var s1 := s.(ent := s.ent[p := e], rq := s.rq[e.priority := Insert(s.rq[e.priority], p, front)]);
    InsertElements(s.rq[e.priority], p, front);
    assert ReadyInv(s1, run + {p});
    hide Insert, Policy;
    if s1.ent[s1.procPtr].priority > e.priority && s1.ent[s1.procPtr].preemptible {
      PickProcChoice(s1, run + {p});
    } else {
      assert Current(s1) == Current(s) && Current(s) != p;
    }
  }

  lemma DequeueChoice(s: Sched, run: set<nat>, p: nat)
    requires SchedInv(s, run) && p < |s.ent| && p != IDLE && Unoutranked(s, run)
    ensures SchedInv(Dequeue(s, p), run - {p})
    ensures Unoutranked(Dequeue(s, p), run - {p})
  {
    DequeueInv(s, run, p);
    var q := s.ent[p].priority;
    if p in s.rq[q] && (p == s.procPtr || s.nextPtr == Some(p)) {
      var k := IndexOf(s.rq[q], p);
      RemoveAtElements(s.rq[q], k);
      var s1 := s.(rq := s.rq[q := RemoveAt(s.rq[q], k)]);
      assert ReadyInv(s1, run - {p});
      PickProcChoice(s1, run - {p});
    }
  }

  datatype QueueOp = Enq(p: nat) | Deq(p: nat)

  function RunAfter(run: set<nat>, ops: seq<QueueOp>): set<nat>
    decreases |ops|
  {
    if ops == [] then run
    else RunAfter(match ops[0] case Enq(p) => run + {p} case Deq(p) => run - {p}, ops[1..])
  }

  function Apply(s: Sched, ops: seq<QueueOp>): (r: Sched)
    requires Shape(s) && forall op :: op in ops ==> op.p < |s.ent|
    ensures Shape(r) && |r.ent| == |s.ent| && r.procPtr == s.procPtr
    decreases |ops|
  {
    if ops == [] then s
    else Apply(match ops[0] case Enq(p) => Enqueue(s, p) case Deq(p) => Dequeue(s, p), ops[1..])
  }

  /** Only processes off the lists are enqueued, and neither IDLE nor the running
      process is touched. */
  ghost predicate OthersOnly(s: Sched, run: set<nat>, ops: seq<QueueOp>)
    decreases |ops|
  {
    ops == [] ||
    (&& ops[0].p < |s.ent| && ops[0].p != s.procPtr && ops[0].p != IDLE
     && (ops[0].Enq? ==> ops[0].p !in run)
     && OthersOnly(s, RunAfter(run, [ops[0]]), ops[1..]))
  }

  /** While the running process stays queued and preemptible, no sequence of queue
      operations on other processes leaves a better process waiting. */
  lemma {:induction false} ChoiceNeverOutranked(s: Sched, run: set<nat>, ops: seq<QueueOp>)
    requires SchedInv(s, run) && Unoutranked(s, run)
    requires s.procPtr in run && s.ent[s.procPtr].preemptible
    requires OthersOnly(s, run, ops)
    requires forall op :: op in ops ==> op.p < |s.ent|
    ensures SchedInv(Apply(s, ops), RunAfter(run, ops))
    ensures Unoutranked(Apply(s, ops), RunAfter(run, ops))
    decreases |ops|
  {
    if ops != [] {
      var p := ops[0].p;
      var s1, run1;
      match ops[0] {
        case Enq(_) =>
          EnqueueChoiceExact(s, run, p);
          s1, run1 := Enqueue(s, p), run + {p};
          EnqueueEntries(s, p);
        case Deq(_) =>
          DequeueChoice(s, run, p);
          s1, run1 := Dequeue(s, p), run - {p};
      }
      assert RunAfter(run, [ops[0]]) == run1 by { assert [ops[0]][1..] == []; }
      OthersOnlyFrame(s, s1, run1, ops[1..]);
      ChoiceNeverOutranked(s1, run1, ops[1..]);
    }
  }

  lemma EnqueueEntries(s: Sched, p: nat)
    requires Shape(s) && p < |s.ent|
    ensures Enqueue(s, p).ent == s.ent[p := Policy(s.ent[p]).0]
  {
  }

  lemma {:induction false} OthersOnlyFrame(s: Sched, t: Sched, run: set<nat>, ops: seq<QueueOp>)
    requires OthersOnly(s, run, ops) && |s.ent| == |t.ent| && s.procPtr == t.procPtr
    ensures OthersOnly(t, run, ops)
    decreases |ops|
  {
    if ops != [] {
      OthersOnlyFrame(s, t, RunAfter(run, [ops[0]]), ops[1..]);
    }
  }

  /** Without that hypothesis the choice can be outranked: process 1 (priority 4)
      has just blocked, process 2 (priority 7) is chosen, and process 3 (priority 5)
      becomes ready without pick_proc() being called. */
  lemma BlockedRunnerCanBeOutranked() returns (s: Sched, run: set<nat>)
    ensures SchedInv(s, run) && Unoutranked(s, run) && 3 < |s.ent| && 3 !in run
    ensures SchedInv(Enqueue(s, 3), run + {3})
    ensures !Unoutranked(Enqueue(s, 3), run + {3})
  {
    var rq := seq(16, q requires 0 <= q < 16 => if q == 15 then [0] else if q == 7 then [2] else []);
    s := Sched([Entry(15, 15, 8, 8, true, true), Entry(4, 4, 8, 8, true, false),
                Entry(7, 7, 8, 8, true, false), Entry(5, 5, 8, 8, true, false)],
               rq, 1, Some(2), 0);
    run := {0, 2};
    assert 0 in rq[15] && 2 in rq[7];
    EnqueueChoiceExact(s, run, 3);
  }

  // ------------------------------------------------------------- balance_queues

  /** Take p off its list, give it the entry e, and put it back. */
  function Requeue(s: Sched, p: nat, e: Entry): (r: Sched)
    requires Shape(s) && p < |s.ent| && e.priority < NR_SCHED_QUEUES
    ensures Shape(r) && |r.ent| == |s.ent| && r.procPtr == s.procPtr
  {
    Enqueue(Dequeue(s, p).(ent := s.ent[p := e]), p)
  }

  lemma RequeueInv(s: Sched, run: set<nat>, p: nat, e: Entry)
    requires SchedInv(s, run) && p in run && e.priority < NR_SCHED_QUEUES
    requires PriorityInv(s.(ent := s.ent[p := e]))
    ensures SchedInv(Requeue(s, p, e), run)
  {
    DequeueReady(s, run, p);
    var s1 := Dequeue(s, p);
    OffListEntry(s1, run - {p}, p, e);
    var s2 := s1.(ent := s.ent[p := e]);
    assert PriorityInv(s2);
    EnqueueInv(s2, run - {p}, p);
    assert run - {p} + {p} == run;
  }

  function BalanceOne(s: Sched, run: set<nat>, p: nat): (r: Sched)
    requires Shape(s) && p < |s.ent|
    ensures Shape(r) && |r.ent| == |s.ent| && r.procPtr == s.procPtr
  {
    if s.ent[p].priority > s.ent[p].maxPriority then
      var e := s.ent[p].(priority := s.ent[p].priority - 1);
      if p in run then Requeue(s, p, e) else s.(ent := s.ent[p := e])
    else s.(ent := s.ent[p := s.ent[p].(ticksLeft := s.ent[p].quantum)])
  }

  /** One pass over the slots from p on; run and live do not change meanwhile. */
  function BalanceFrom(s: Sched, run: set<nat>, live: set<nat>, p: nat): (r: Sched)
    requires Shape(s) && p <= |s.ent|
    ensures Shape(r) && |r.ent| == |s.ent| && r.procPtr == s.procPtr
    decreases |s.ent| - p
  {
    if p == |s.ent| then s
    else BalanceFrom(if p in live then BalanceOne(s, run, p) else s, run, live, p + 1)
  }

  function Balance(s: Sched, run: set<nat>, live: set<nat>): Sched
    requires Shape(s)
  {
    BalanceFrom(s, run, live, 0)
  }

  /** Where enqueue puts p: a process with time left is first on the list of its priority, as
      it was; one without is last on the list of the next lower priority, short of IDLE's,
      with a new quantum.  The order of the others stays. */
  lemma EnqueueOrder(s: Sched, p: nat)
    requires Shape(s) && p < |s.ent|
    ensures var r, e := Enqueue(s, p), s.ent[p];
            var q := r.ent[p].priority;
            && (forall x :: 0 <= x < |s.ent| && x != p ==> r.ent[x] == s.ent[x])
            && (forall x :: 0 <= x < |s.rq| && x != q ==> r.rq[x] == s.rq[x])
            && |r.rq[q]| == |s.rq[q]| + 1
            && if e.ticksLeft > 0 then r.ent[p] == e && r.rq[q][0] == p && r.rq[q][1..] == s.rq[q]
               else
                 && r.rq[q][|s.rq[q]|] == p && r.rq[q][..|s.rq[q]|] == s.rq[q]
                 && r.ent[p] == e.(ticksLeft := e.quantum, priority := q)
                 && (e.priority < IDLE_Q ==> q == if e.priority == IDLE_Q - 1 then IDLE_Q - 1 else e.priority + 1)
  {
  }

  /** dequeue takes p off its list, and the order of the others stays. */
  lemma DequeueOrder(s: Sched, p: nat, k: nat)
    requires Shape(s) && p < |s.ent| && k < |s.rq[s.ent[p].priority]| && s.rq[s.ent[p].priority][k] == p
    requires Distinct(s.rq[s.ent[p].priority])
    ensures var r, q := Dequeue(s, p), s.ent[p].priority;
            && r.rq[q] == s.rq[q][..k] + s.rq[q][k + 1..]
            && forall x :: 0 <= x < |s.rq| && x != q ==> r.rq[x] == s.rq[x]
  {
    assert IndexOf(s.rq[s.ent[p].priority], p) == k;
  }

  /** pick_proc chooses the process at the head of the best list that is not empty, and bills
      it if it is billable. */
  lemma PickProcExact(s: Sched, q: nat)
    requires Shape(s) && q < |s.rq| && s.rq[q] != [] && forall x :: 0 <= x < q ==> s.rq[x] == []
    ensures var r, p := PickProc(s), s.rq[q][0];
            r == s.(nextPtr := Some(p), billPtr := r.billPtr) && r.billPtr == if s.ent[p].billable then p else s.billPtr
  {
    assert FirstReady(s.rq, 0) == q;
  }

  /** A clock interrupt takes the ticks from the running process if that is preemptible, and
      from the billed one if the running one is not billable, and from nobody else. */
  lemma ChargeExact(s: Sched, ticks: nat, p: nat)
    requires Shape(s) && p < |s.ent|
    ensures var r, run := Charge(s, ticks), s.ent[s.procPtr];
            && r == s.(ent := r.ent) && |r.ent| == |s.ent|
            && r.ent[p] == s.ent[p].(ticksLeft := s.ent[p].ticksLeft
                 - (if p == s.procPtr && run.preemptible then ticks else 0)
                 - (if p == s.billPtr && !run.billable then ticks else 0))
  {
  }

  /** The entry of a process that is on no list may change freely. */
  lemma OffListEntry(s: Sched, run: set<nat>, p: nat, e: Entry)
    requires ReadyInv(s, run) && p < |s.ent| && p !in run && e.priority < NR_SCHED_QUEUES
    ensures ReadyInv(s.(ent := s.ent[p := e]), run)
  {
  }

  /** So may everything but the priority of one that is. */
  lemma SamePriorityEntry(s: Sched, run: set<nat>, p: nat, e: Entry)
    requires ReadyInv(s, run) && p < |s.ent| && e.priority == s.ent[p].priority
    ensures ReadyInv(s.(ent := s.ent[p := e]), run)
  {
  }

  /** The ticks clock_handler charges to the running and to the billed process. */
  function Charge(s: Sched, ticks: nat): (r: Sched)
    requires Shape(s)
    ensures Shape(r) && |r.ent| == |s.ent|
  {
    var run := s.ent[s.procPtr];
    var s1 := if run.preemptible then
                s.(ent := s.ent[s.procPtr := run.(ticksLeft := run.ticksLeft - ticks)])
              else s;
    var bill := s1.ent[s1.billPtr];
    if !run.billable then
      s1.(ent := s1.ent[s1.billPtr := bill.(ticksLeft := bill.ticksLeft - ticks)])
    else s1
  }

  lemma ChargeInv(s: Sched, run: set<nat>, ticks: nat)
    requires SchedInv(s, run)
    ensures SchedInv(Charge(s, ticks), run)
  {
    var e := s.ent[s.procPtr];
    var s1 := if e.preemptible then
                s.(ent := s.ent[s.procPtr := e.(ticksLeft := e.ticksLeft - ticks)])
              else s;
    SamePriorityEntry(s, run, s.procPtr, e.(ticksLeft := e.ticksLeft - ticks));
    var b := s1.ent[s1.billPtr];
    SamePriorityEntry(s1, run, s1.billPtr, b.(ticksLeft := b.ticksLeft - ticks));
  }

  lemma BalanceOneInv(s: Sched, run: set<nat>, p: nat)
    requires SchedInv(s, run) && p < |s.ent|
    ensures SchedInv(BalanceOne(s, run, p), run)
  {
    if s.ent[p].priority > s.ent[p].maxPriority {
      var e := s.ent[p].(priority := s.ent[p].priority - 1);
      if p in run {
        RequeueInv(s, run, p, e);
      } else {
        OffListEntry(s, run, p, e);
      }
    } else {
      SamePriorityEntry(s, run, p, s.ent[p].(ticksLeft := s.ent[p].quantum));
    }
  }

  lemma {:induction false} BalanceFromInv(s: Sched, run: set<nat>, live: set<nat>, p: nat)
    requires SchedInv(s, run) && p <= |s.ent|
    ensures SchedInv(BalanceFrom(s, run, live, p), run)
    decreases |s.ent| - p
  {
    if p < |s.ent| {
      BalanceOneInv(s, run, p);
      BalanceFromInv(if p in live then BalanceOne(s, run, p) else s, run, live, p + 1);
    }
  }

  /** What one pass does to one process, whatever the others do. */
  function Raise(e: Entry, running: bool): Entry {
    if e.priority > e.maxPriority then
      var f := e.(priority := e.priority - 1);
      if running then Policy(f).0 else f
    else e.(ticksLeft := e.quantum)
  }

  lemma {:induction false} BalanceFromRaises(s: Sched, run: set<nat>, live: set<nat>, p: nat)
    requires Shape(s) && p <= |s.ent|
    ensures var r := BalanceFrom(s, run, live, p);
            forall x :: 0 <= x < |s.ent| ==>
              r.ent[x] == if p <= x && x in live then Raise(s.ent[x], x in run) else s.ent[x]
    decreases |s.ent| - p
  {
    if p < |s.ent| {
      BalanceFromRaises(if p in live then BalanceOne(s, run, p) else s, run, live, p + 1);
    }
  }

  function Raises(e: Entry, running: bool, n: nat): Entry
    decreases n
  {
    if n == 0 then e else Raises(Raise(e, running), running, n - 1)
  }

  function Balances(s: Sched, run: set<nat>, live: set<nat>, n: nat): (r: Sched)
    requires Shape(s)
    ensures Shape(r) && |r.ent| == |s.ent|
    decreases n
  {
    if n == 0 then s else Balances(Balance(s, run, live), run, live, n - 1)
  }

  /** What a pass of balance_queues does to a process in use: at its maximum priority it gets
      a new quantum; below it, it is raised by one, except that sched() puts a runnable process
      without time left back, with a new quantum. */
  lemma BalanceExact(s: Sched, run: set<nat>, live: set<nat>, p: nat)
    requires Shape(s) && PriorityInv(s) && p < |s.ent| && p != IDLE
    ensures var e, f := s.ent[p], Balance(s, run, live).ent[p];
            if p !in live then f == e
            else if e.priority == e.maxPriority then f == e.(ticksLeft := e.quantum)
            else if p in run && e.ticksLeft <= 0 then f == e.(ticksLeft := e.quantum)
            else f == e.(priority := e.priority - 1)
  {
    BalanceFromRaises(s, run, live, 0);
  }

  lemma {:induction false} BalancesRaise(s: Sched, run: set<nat>, live: set<nat>, n: nat, p: nat)
    requires Shape(s) && p < |s.ent| && p in live
    ensures Balances(s, run, live, n).ent[p] == Raises(s.ent[p], p in run, n)
    decreases n
  {
    if n > 0 {
      BalanceFromRaises(s, run, live, 0);
      BalancesRaise(Balance(s, run, live), run, live, n - 1, p);
    }
  }

  lemma {:induction false} RaisesReachMax(e: Entry, running: bool, n: nat)
    requires e.maxPriority <= e.priority <= IDLE_Q - 1 && e.quantum > 0
    requires n >= e.priority - e.maxPriority + (if running && e.ticksLeft <= 0 then 1 else 0)
    ensures Raises(e, running, n).priority == e.maxPriority
    decreases n
  {
    if n > 0 {
      if e.priority == e.maxPriority {
        AtMaxStays(e, running, n);
      } else {
        RaisesReachMax(Raise(e, running), running, n - 1);
      }
    }
  }

  lemma {:induction false} AtMaxStays(e: Entry, running: bool, n: nat)
    requires e.priority == e.maxPriority
    ensures Raises(e, running, n).priority == e.maxPriority
    decreases n
  {
    if n > 0 {
      AtMaxStays(Raise(e, running), running, n - 1);
    }
  }

  /** Priority recovery: with no ticks charged and nobody woken in between,
      (p_priority - p_max_priority) + 1 passes bring every live process but IDLE to its
      maximum priority, although sched() demotes one that is out of time again. */
  lemma PriorityRecovery(s: Sched, run: set<nat>, live: set<nat>, p: nat, n: nat)
    requires SchedInv(s, run) && p < |s.ent| && p in live && p != IDLE && s.ent[p].quantum > 0
    requires n >= s.ent[p].priority - s.ent[p].maxPriority + 1
    ensures Balances(s, run, live, n).ent[p].priority == s.ent[p].maxPriority
  {
    BalancesRaise(s, run, live, n, p);
    RaisesReachMax(s.ent[p], p in run, n);
  }
}
