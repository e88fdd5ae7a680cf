/** check_runqueues_f() of kernel/debug.c: the authors' own check of the ready queues
    accepts exactly the well-formed ones. */
module QueueAudit {
  import opened KernelTypes
  import opened LinkedLists
  import opened Scheduler
  import opened ReadyQueues
  import opened WaitGraph

  /** What the check looks at; ready and free stand for p_ready and SLOT_FREE. */
  datatype Table = Table(
    ent: seq<Entry>, ready: seq<bool>, free: seq<bool>,
    head: seq<Option<nat>>, tail: seq<Option<nat>>, next: seq<Option<nat>>)

  predicate TableShape(t: Table) {
    && |t.ent| == |t.ready| == |t.free| == |t.next|
    && |t.head| == |t.tail| == NR_SCHED_QUEUES
  }

  /** x may be on list q. */
  predicate MayBeOn(t: Table, q: nat, x: nat)
    requires TableShape(t)
  {
    x < |t.ent| && t.ready[x] && !t.free[x] && t.ent[x].priority == q
  }

  /** rq is what the pointers say, and holds the ready processes where they belong. */
  ghost predicate Good(t: Table, rq: seq<seq<nat>>)
    requires TableShape(t)
  {
    && |rq| == NR_SCHED_QUEUES && AllLinked(rq, t.head, t.tail, t.next) && Separate(rq)
    && (forall q, x: nat :: 0 <= q < |rq| && x in rq[q] ==> MayBeOn(t, q, x))
    && (forall x :: 0 <= x < |t.ent| && t.ready[x] && !t.free[x] ==> !Nowhere(rq, x))
  }

  /** The walk along one list.  l is the part already seen. */
  ghost predicate Walked(t: Table, q: nat, l: seq<nat>, cur: Option<nat>)
    requires TableShape(t) && q < NR_SCHED_QUEUES
  {
    && (forall j :: 0 <= j < |l| ==> MayBeOn(t, q, l[j]))
    && (forall j :: 0 <= j < |l| - 1 ==> t.next[l[j]] == Some(l[j + 1]))
    && (if l == [] then t.head[q] == cur else t.head[q] == Some(l[0]) && t.next[l[|l| - 1]] == cur)
  }

  lemma WalkedChain(t: Table, q: nat, l: seq<nat>)
    requires TableShape(t) && q < NR_SCHED_QUEUES && Walked(t, q, l, None)
    ensures Chain(l, t.head[q], t.next)
  {
    forall j | 0 <= j < |l| ensures LinkOk(l, t.next, j) { assert MayBeOn(t, q, l[j]); }
  }

  /** A well-formed list begins with what has been seen of it, and goes on with cur. */
  lemma WalkedPrefix(t: Table, q: nat, l: seq<nat>, cur: Option<nat>, full: seq<nat>)
    requires TableShape(t) && q < NR_SCHED_QUEUES && Walked(t, q, l, cur) && Chain(full, t.head[q], t.next)
    ensures |l| <= |full| && l == full[..|l|] && cur == if |l| < |full| then Some(full[|l|]) else None
    decreases |l|
  {
    if l != [] {
      var m := l[..|l| - 1];
      assert forall j :: 0 <= j < |m| ==> m[j] == l[j] && MayBeOn(t, q, l[j]);
      WalkedPrefix(t, q, m, Some(l[|l| - 1]), full);
      assert LinkOk(full, t.next, |l| - 1);
    }
  }

  /** On the way along a list of well-formed queues nothing is wrong. */
  lemma GoodNext(t: Table, q: nat, l: seq<nat>, cur: Option<nat>, want: seq<seq<nat>>)
    requires TableShape(t) && q < NR_SCHED_QUEUES && Walked(t, q, l, cur) && cur.Some? && Good(t, want)
    ensures |l| < |want[q]| && cur.value in want[q] && MayBeOn(t, q, cur.value) && cur.value !in l
    ensures t.next[cur.value].None? ==> t.tail[q] == cur
  {
    WalkedPrefix(t, q, l, cur, want[q]);
    assert want[q][|l|] in want[q];
    assert Distinct(want[q]);
    assert forall j :: 0 <= j < |l| ==> l[j] == want[q][j];
    assert LinkOk(want[q], t.next, |l|);
  }

  lemma GoodEnds(t: Table, q: nat, want: seq<seq<nat>>)
    requires TableShape(t) && q < NR_SCHED_QUEUES && Good(t, want)
    ensures t.head[q].Some? <==> t.tail[q].Some?
    ensures t.tail[q].Some? ==> t.tail[q].value < |t.next| && t.next[t.tail[q].value].None?
  {
    assert Chain(want[q], t.head[q], t.next);
    if want[q] != [] { assert LinkOk(want[q], t.next, |want[q]| - 1); }
  }

  lemma WalkedStep(t: Table, q: nat, l: seq<nat>, x: nat)
    requires TableShape(t) && q < NR_SCHED_QUEUES && Walked(t, q, l, Some(x)) && MayBeOn(t, q, x)
    ensures Walked(t, q, l + [x], t.next[x])
  {
    var m := l + [x];
    forall j | 0 <= j < |m| - 1 ensures t.next[m[j]] == Some(m[j + 1]) {
      assert MayBeOn(t, q, l[j]);
    }
  }

  /** The check of one queue; want is any lists the table might be meant to hold. */
  method CheckQueue(t: Table, q: nat, found: set<nat>, ghost want: seq<seq<nat>>)
    returns (ok: bool, found': set<nat>, ghost l: seq<nat>)
    requires TableShape(t) && q < NR_SCHED_QUEUES
    requires Good(t, want) ==> forall x: nat :: x in want[q] ==> x !in found
    ensures Good(t, want) ==> ok && l == want[q]
    ensures ok ==> Chain(l, t.head[q], t.next) && Distinct(l) && t.tail[q] == if l == [] then None else Some(l[|l| - 1])
    ensures ok ==> forall x: nat :: x in l ==> MayBeOn(t, q, x) && x !in found
    ensures ok ==> forall x: nat :: x in found' <==> x in found || x in l
  {
    l, found' := [], found;
    if Good(t, want) { GoodEnds(t, q, want); }
    if (t.head[q].Some? && t.tail[q].None?) || (t.head[q].None? && t.tail[q].Some?) {
      return false, found', l;
    }
    if t.tail[q].Some? && (t.tail[q].value >= |t.next| || t.next[t.tail[q].value].Some?) {
      return false, found', l;
    }
    var xp := t.head[q];
    assert Walked(t, q, l, xp);
    hide Walked, Good, TableShape;
    while xp.Some?
      invariant Walked(t, q, l, xp) && Distinct(l)
      invariant l != [] && xp.None? ==> t.tail[q] == Some(l[|l| - 1])
      invariant forall x: nat :: x in found' <==> x in found || x in l
      invariant forall x: nat :: x in l ==> MayBeOn(t, q, x) && x !in found
      decreases |t.ent| - |l|
    {
      var x := xp.value;
      if Good(t, want) { GoodNext(t, q, l, xp, want); }
      if x >= |t.ent| || t.free[x] || !t.ready[x] || t.ent[x].priority != q {
        return false, found', l;
      }
      if x in found' {
        return false, found', l;
      }
      found' := found' + {x};
      WalkedStep(t, q, l, x);
      l := l + [x];
      DistinctBelow(l, |t.ent|);
      if t.next[x].None? && t.tail[q] != xp {
        return false, found', l;
      }
      xp := t.next[x];
    }
    WalkedChain(t, q, l);
    if Good(t, want) { WalkedPrefix(t, q, l, None, want[q]); }
    ok := true;
  }

  /** check_runqueues_f(): ok is false where it panics.  Whatever lists the table might be
      meant to hold, it accepts if they are there, and if it accepts, well-formed ones are. */
  method CheckRunqueues(t: Table, ghost want: seq<seq<nat>>) returns (ok: bool, ghost rq: seq<seq<nat>>)
    requires TableShape(t)
    ensures ok ==> Good(t, rq)
    ensures Good(t, want) ==> ok && rq == want
  {
    hide Chain;
    var found: set<nat> := {};
    rq := [];
    var q := 0;
    while q < NR_SCHED_QUEUES
      invariant 0 <= q <= NR_SCHED_QUEUES && |rq| == q
      invariant forall r :: 0 <= r < q ==> QueueGood(t, r, rq[r])
      invariant Separate(rq) && (forall x: nat :: x in found <==> !Nowhere(rq, x))
      invariant Good(t, want) ==> rq == want[..q]
    {
      if Good(t, want) {
        assert forall x: nat :: x in want[q] ==> Nowhere(want[..q], x);
      }
      ghost var l;
      ok, found, l := CheckQueue(t, q, found, want);
      if !ok {
        return;
      }
      OneMore(rq, l);
      rq := rq + [l];
      q := q + 1;
    }
    var x := 0;
    while x < |t.ent|
      invariant 0 <= x <= |t.ent|
      invariant forall y :: 0 <= y < x && t.ready[y] && !t.free[y] ==> y in found
    {
      if t.ready[x] && !t.free[x] && x !in found {
        return false, rq;
      }
      x := x + 1;
    }
    forall r, y: nat | 0 <= r < |rq| && y in rq[r] ensures MayBeOn(t, r, y) { assert QueueGood(t, r, rq[r]); }
    forall r | 0 <= r < |rq| ensures Chain(rq[r], t.head[r], t.next) { assert QueueGood(t, r, rq[r]); }
    forall r | 0 <= r < |rq| ensures t.tail[r] == if rq[r] == [] then None else Some(rq[r][|rq[r]| - 1]) {
      assert QueueGood(t, r, rq[r]);
    }
    ok := true;
  }

  /** Queue q of the table is the list l. */
  ghost predicate QueueGood(t: Table, q: nat, l: seq<nat>)
    requires TableShape(t) && q < NR_SCHED_QUEUES
  {
    && Chain(l, t.head[q], t.next) && t.tail[q] == (if l == [] then None else Some(l[|l| - 1]))
    && forall x: nat :: x in l ==> MayBeOn(t, q, x)
  }

  lemma OneMore(ls: seq<seq<nat>>, l: seq<nat>)
    requires Separate(ls) && Distinct(l) && forall x: nat :: x in l ==> Nowhere(ls, x)
    ensures Separate(ls + [l]) && forall x: nat :: Nowhere(ls + [l], x) <==> Nowhere(ls, x) && x !in l
  {
    var m := ls + [l];
    forall q, r, x: nat | 0 <= q < r < |m| && x in m[q] ensures x !in m[r] {
      assert x in l ==> Nowhere(ls, x);
    }
    forall x: nat ensures Nowhere(m, x) <==> Nowhere(ls, x) && x !in l {
      assert forall q :: 0 <= q < |ls| ==> m[q] == ls[q];
      assert m[|ls|] == l;
    }
  }
}
