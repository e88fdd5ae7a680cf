/** The ready lists as kernel/proc.c keeps them: singly linked through the process
    table, with a head and a tail for every queue. */
module ReadyQueues {
  import opened KernelTypes
  import opened LinkedLists
  import opened Scheduler

  /** So do the tails. */
  ghost predicate TailsOk(rq: seq<seq<nat>>, tail: seq<Option<nat>>) {
    |tail| == |rq| && forall q :: 0 <= q < |rq| ==> tail[q] == if rq[q] == [] then None else Some(rq[q][|rq[q]| - 1])
  }

  ghost predicate AllLinked(rq: seq<seq<nat>>, head: seq<Option<nat>>, tail: seq<Option<nat>>, next: seq<Option<nat>>) {
    HeadsOk(rq, head, next, {}) && TailsOk(rq, tail)
  }

  /** What enqueue's assignments do to the lists. */
  lemma InsertedLinked(rq: seq<seq<nat>>, head: seq<Option<nat>>, tail: seq<Option<nat>>, next: seq<Option<nat>>,
                       p: nat, q: nat, front: bool)
    requires AllLinked(rq, head, tail, next) && Separate(rq) && Nowhere(rq, p) && p < |next| && q < |rq|
    ensures rq[q] == [] ==> AllLinked(rq[q := Insert(rq[q], p, front)], head[q := Some(p)], tail[q := Some(p)],
            next[p := None])
    ensures rq[q] != [] && front ==>
              AllLinked(rq[q := Insert(rq[q], p, front)], head[q := Some(p)], tail, next[p := head[q]])
    ensures rq[q] != [] && !front ==>
              && tail[q].Some? && tail[q].value < |next|
              && AllLinked(rq[q := Insert(rq[q], p, front)], head, tail[q := Some(p)],
                 next[tail[q].value := Some(p)][p := None])
  {
    BackHeads(rq, head, next, {}, q, p);
    FrontHeads(rq, head, next, {}, q, p);
    assert rq[q] == [] ==> [p] + rq[q] == rq[q] + [p];
  }

  lemma CutTails(rq: seq<seq<nat>>, tail: seq<Option<nat>>, q: nat, k: nat)
    requires TailsOk(rq, tail) && Separate(rq) && q < |rq| && k < |rq[q]|
    ensures tail[q] == Some(rq[q][k]) <==> k == |rq[q]| - 1
    ensures TailsOk(rq[q := RemoveAt(rq[q], k)],
                    if k == |rq[q]| - 1 then tail[q := if k == 0 then None else Some(rq[q][k - 1])] else tail)
  {
  }

  lemma CutLinked(s: Sched, head: seq<Option<nat>>, tail: seq<Option<nat>>, next: seq<Option<nat>>, q: nat, k: nat)
    requires AllLinked(s.rq, head, tail, next) && Separate(s.rq) && q < |s.rq| && k < |s.rq[q]|
    requires Shape(s) && OnOwnQueue(s.rq, s.ent) && |next| == |s.ent|
    ensures var l := s.rq[q];
            && |head| == |tail| == |s.rq| && l[k] < |next| && (k > 0 ==> l[k - 1] < |next|)
            && var t := if tail[q] == Some(l[k]) then tail[q := if k == 0 then None else Some(l[k - 1])] else tail;
            && (k == 0 ==> AllLinked(s.rq[q := RemoveAt(l, k)], head[q := next[l[k]]], t, next))
            && (k > 0 ==> AllLinked(s.rq[q := RemoveAt(l, k)], head, t, next[l[k - 1] := next[l[k]]]))
    ensures var r := s.rq[q := RemoveAt(s.rq[q], k)];
            Separate(r) && Shape(s.(rq := r)) && OnOwnQueue(r, s.ent)
  {
    CutHeads(s.rq, head, next, {}, q, k);
    CutTails(s.rq, tail, q, k);
    CutSeparate(s.rq, q, k);
    CutShape(s, q, k);
  }

  /** Whoever is on a list is on that of its priority. */
  ghost predicate OnOwnQueue(rq: seq<seq<nat>>, ent: seq<Entry>) {
    forall q, x: nat :: 0 <= q < |rq| && x in rq[q] ==> x < |ent| && ent[x].priority == q
  }

  lemma CutShape(s: Sched, q: nat, k: nat)
    requires Shape(s) && OnOwnQueue(s.rq, s.ent) && q < |s.rq| && k < |s.rq[q]|
    ensures var r := s.rq[q := RemoveAt(s.rq[q], k)]; Shape(s.(rq := r)) && OnOwnQueue(r, s.ent)
  {
    RemoveAtElements(s.rq[q], k);
  }

  lemma InsertedSeparate(rq: seq<seq<nat>>, p: nat, q: nat, front: bool)
    requires Separate(rq) && Nowhere(rq, p) && q < |rq|
    ensures Separate(rq[q := Insert(rq[q], p, front)])
    ensures forall x: nat :: x in Insert(rq[q], p, front) <==> x in rq[q] || x == p
  {
    InsertElements(rq[q], p, front);
  }

  class ReadyQueues {
    var ent: seq<Entry>
    var head: seq<Option<nat>>
    var tail: seq<Option<nat>>
    var next: seq<Option<nat>>
    var procPtr: nat
    var nextPtr: Option<nat>
    var billPtr: nat
    ghost var rq: seq<seq<nat>>

    ghost function Abs(): Sched
      reads this
    {
      Sched(ent, rq, procPtr, nextPtr, billPtr)
    }

    ghost predicate Linked()
      reads this
    {
      |rq| == NR_SCHED_QUEUES && |next| == |ent| && AllLinked(rq, head, tail, next)
    }

    ghost predicate Valid()
      reads this
    {
      && Shape(Abs()) && Linked() && Separate(rq)
      && OnOwnQueue(rq, ent)
    }

    /** All entries cleared, all lists empty. */
    constructor (n: nat)
      requires n > 0
      ensures Valid()
      ensures Abs() == Sched(seq(n, p => Entry(0, 0, 0, 0, false, false)), seq(NR_SCHED_QUEUES, q => []), 0, None, 0)
    {
      ent := seq(n, p => Entry(0, 0, 0, 0, false, false));
      head, tail := seq(NR_SCHED_QUEUES, q => None), seq(NR_SCHED_QUEUES, q => None);
      next := seq(n, p => None);
      procPtr, nextPtr, billPtr := 0, None, 0;
      rq := seq(NR_SCHED_QUEUES, q => []);
    }

    /** sched(): the policy, and the queue it leads to. */
    method Place(p: nat) returns (q: nat, front: bool)
      requires Valid() && p < |ent| && Nowhere(rq, p)
      modifies this`ent
      ensures Valid() && (q, front) == (Policy(old(ent)[p]).0.priority, Policy(old(ent)[p]).1)
      ensures ent == old(ent)[p := Policy(old(ent)[p]).0]
    {
      front := ent[p].ticksLeft > 0;
      if !front {
        ent := ent[p := ent[p].(ticksLeft := ent[p].quantum)];
        if ent[p].priority < IDLE_Q - 1 {
          ent := ent[p := ent[p].(priority := ent[p].priority + 1)];
        }
      }
      q := ent[p].priority;
    }

    /** Assign to the scheduling fields of p; the priority only while it is on no list. */
    method SetEntry(p: nat, e: Entry)
      requires Valid() && p < |ent| && e.priority < NR_SCHED_QUEUES
      requires Nowhere(rq, p) || e.priority == ent[p].priority
      modifies this`ent
      ensures Valid() && Abs() == old(Abs()).(ent := old(ent)[p := e])
    {
      ent := ent[p := e];
    }

    /** The switch at the start of schedcheck(). */
    method Switch()
      requires Valid()
      modifies this`procPtr, this`nextPtr
      ensures Valid() && Abs() == old(Abs()).(procPtr := Current(old(Abs())), nextPtr := None)
    {
      if nextPtr.Some? {
        procPtr := nextPtr.value;
        nextPtr := None;
      }
    }

    /** pick_proc(); found is false where the kernel panics. */
    method PickProc() returns (found: bool)
      requires Valid()
      modifies this`nextPtr, this`billPtr
      ensures Valid() && Abs() == Scheduler.PickProc(old(Abs()))
      ensures found <==> exists q :: 0 <= q < NR_SCHED_QUEUES && rq[q] != []
    {
      var q := 0;
      while q < NR_SCHED_QUEUES
        invariant 0 <= q <= NR_SCHED_QUEUES
        invariant Valid() && Abs() == old(Abs())
        invariant forall j :: 0 <= j < q ==> rq[j] == []
        invariant FirstReady(rq, 0) == FirstReady(rq, q)
      {
        var rp := head[q];
        if rp.Some? {
          nextPtr := rp;
          if ent[rp.value].billable {
            billPtr := rp.value;
          }
          return true;
        }
        q := q + 1;
      }
      return false;
    }

    /** Put p on list q, at the front or at the end. */
    method Link(p: nat, q: nat, front: bool)
      requires Valid() && p < |ent| && q == ent[p].priority && Nowhere(rq, p)
      modifies this`head, this`tail, this`next, this`rq
      ensures Valid() && rq == old(rq)[q := Insert(old(rq)[q], p, front)]
    {
      InsertedLinked(rq, head, tail, next, p, q, front);
      InsertedSeparate(rq, p, q, front);
      if head[q].None? {
        head, tail, next := head[q := Some(p)], tail[q := Some(p)], next[p := None];
      } else if front {
        next := next[p := head[q]];
        head := head[q := Some(p)];
      } else {
        next := next[tail[q].value := Some(p)];
        tail := tail[q := Some(p)];
        next := next[p := None];
      }
      rq := rq[q := Insert(rq[q], p, front)];
    }

    method Enqueue(p: nat)
      requires Valid() && p < |ent| && Nowhere(rq, p)
      modifies this
      ensures Valid() && Abs() == Scheduler.Enqueue(old(Abs()), p)
    {
      var q, front := Place(p);
      Link(p, q, front);
      if ent[procPtr].priority > ent[p].priority && ent[procPtr].preemptible {
        var found := PickProc();
      }
    }

    /** Take the k-th node off list q; prev is the one before it. */
    method Unlink(q: nat, prev: Option<nat>, p: nat, ghost k: nat)
      requires Valid() && q < NR_SCHED_QUEUES && k < |rq[q]| && rq[q][k] == p
      requires prev == if k == 0 then None else Some(rq[q][k - 1])
      modifies this`head, this`tail, this`next, this`rq
      ensures Valid() && rq == old(rq)[q := RemoveAt(old(rq)[q], k)]
    {
      hide HeadsOk, TailsOk, Separate, OnOwnQueue, Shape;
      assert q < |rq| == NR_SCHED_QUEUES;
      CutLinked(Abs(), head, tail, next, q, k);
      if prev.None? {
        head := head[q := next[p]];
      } else {
        next := next[prev.value := next[p]];
      }
      if tail[q] == Some(p) {
        tail := tail[q := prev];
      }
      rq := rq[q := RemoveAt(rq[q], k)];
      assert Abs() == old(Abs()).(rq := rq);
    }

    method Dequeue(p: nat)
      requires Valid() && p < |ent|
      modifies this`head, this`tail, this`next, this`rq, this`nextPtr, this`billPtr
      ensures Valid() && Abs() == Scheduler.Dequeue(old(Abs()), p) && Nowhere(rq, p)
    {
      var q := ent[p].priority;
      var prev: Option<nat> := None;
      var cur := head[q];
      ghost var j := 0;
      while cur.Some?
        invariant Valid() && Abs() == old(Abs()) && 0 <= j <= |rq[q]|
        invariant cur == if j < |rq[q]| then Some(rq[q][j]) else None
        invariant prev == if j == 0 then None else Some(rq[q][j - 1])
        invariant forall m :: 0 <= m < j ==> rq[q][m] != p
        decreases |rq[q]| - j
      {
        if cur == Some(p) {
          CutSeparate(rq, q, j);
          Unlink(q, prev, p, j);
          if p == procPtr || nextPtr == Some(p) {
            var found := PickProc();
          }
          return;
        }
        assert LinkOk(rq[q], next, j);
        prev := cur;
        cur := next[cur.value];
        j := j + 1;
      }
    }

    /** balance_queues()'s step for one process in use; runnable says that its flags are 0. */
    method Raise(p: nat, runnable: bool, ghost run: set<nat>)
      requires Valid() && p < |ent| && (runnable <==> p in run) && (!runnable ==> Nowhere(rq, p))
      modifies this
      ensures Valid() && Abs() == Scheduler.BalanceOne(old(Abs()), run, p)
    {
      hide Scheduler.Enqueue, Scheduler.Dequeue;
      var e := ent[p];
      if e.priority > e.maxPriority {
        if runnable {
          Dequeue(p);
        }
        SetEntry(p, e.(priority := e.priority - 1));
        if runnable {
          Enqueue(p);
        }
      } else {
        SetEntry(p, e.(ticksLeft := e.quantum));
      }
    }

    /** clock_handler()'s accounting. */
    method ChargeTicks(ticks: nat)
      requires Valid()
      modifies this`ent
      ensures Valid() && Abs() == Charge(old(Abs()), ticks)
    {
      var r := ent[procPtr];
      if r.preemptible {
        SetEntry(procPtr, r.(ticksLeft := r.ticksLeft - ticks));
      }
      if !r.billable {
        var b := ent[billPtr];
        SetEntry(billPtr, b.(ticksLeft := b.ticksLeft - ticks));
      }
    }
  }
}
