/** The caller queues as kernel/proc.c keeps them: p_caller_q leads to the first process
    blocked on sending, p_q_link from each to the next. */
module CallerQueues {
  import opened KernelTypes
  import opened LinkedLists
  import opened Ipc

  ghost predicate Within(ls: seq<seq<nat>>, n: nat) {
    forall q, x: nat :: 0 <= q < |ls| && x in ls[q] ==> x < n
  }

  /** The queues of the owners that are not stale. */
  ghost function Current(cq: seq<seq<nat>>, stale: set<nat>): (ls: seq<seq<nat>>)
    ensures |ls| == |cq| && forall q :: 0 <= q < |cq| ==> ls[q] == if q in stale then [] else cq[q]
  {
    seq(|cq|, q requires 0 <= q < |cq| => if q in stale then [] else cq[q])
  }

  class CallerQueues {
    var first: seq<Option<nat>>
    var link: seq<Option<nat>>
    ghost var cq: seq<seq<nat>>
    /** Owners that clear_endpoint cut off.  Their p_caller_q is left as it was, but what it
        leads to is relinked into other queues: no method looks at it again. */
    ghost var stale: set<nat>

    ghost predicate Valid()
      reads this
    {
      && |first| == |link| == |cq|
      && Within(cq, |cq|) && Separate(Current(cq, stale)) && HeadsOk(Current(cq, stale), first, link, stale)
    }

    constructor (n: nat)
      ensures Valid() && cq == seq(n, q => []) && stale == {}
    {
      first, link := seq(n, q => None), seq(n, q => None);
      cq, stale := seq(n, q => []), {};
    }

    /** mini_send's walk to the end of the queue of q. */
    method Append(q: nat, p: nat)
      requires Valid() && q < |cq| && p < |cq| && q !in stale && Nowhere(Current(cq, stale), p)
      modifies this`first, this`link, this`cq
      ensures Valid() && cq == old(cq)[q := old(cq)[q] + [p]]
    {
      ghost var ls := Current(cq, stale);
      BackHeads(ls, first, link, stale, q, p);
      AddedSeparate(ls, q, p);
      var prev: Option<nat> := None;
      var cur := first[q];
      ghost var j := 0;
      while cur.Some?
        invariant 0 <= j <= |cq[q]|
        invariant cur == if j < |cq[q]| then Some(cq[q][j]) else None
        invariant prev == if j == 0 then None else Some(cq[q][j - 1])
        decreases |cq[q]| - j
      {
        assert LinkOk(cq[q], link, j);
        prev := cur;
        cur := link[cur.value];
        j := j + 1;
      }
      hide HeadsOk, Separate, Within;
      if prev.None? {
        first := first[q := Some(p)];
      } else {
        link := link[prev.value := Some(p)];
      }
      link := link[p := None];
      AddedWithin(cq, q, p);
      cq := cq[q := cq[q] + [p]];
      assert Current(cq, stale) == ls[q := ls[q] + [p]];
    }

    /** The first process in the queue of q that is wanted, and the one before it. */
    method Find(q: nat, want: Option<nat>) returns (prev: Option<nat>, cur: Option<nat>, ghost k: nat)
      requires Valid() && q < |cq| && q !in stale
      ensures k == FindCaller(cq[q], want, 0) <= |cq[q]|
      ensures cur == if k < |cq[q]| then Some(cq[q][k]) else None
      ensures prev == if k == 0 then None else Some(cq[q][k - 1])
    {
      prev, cur, k := None, first[q], 0;
      while cur.Some?
        invariant 0 <= k <= |cq[q]|
        invariant cur == if k < |cq[q]| then Some(cq[q][k]) else None
        invariant prev == if k == 0 then None else Some(cq[q][k - 1])
        invariant FindCaller(cq[q], want, 0) == FindCaller(cq[q], want, k)
        decreases |cq[q]| - k
      {
        if want.None? || want == cur {
          return;
        }
        assert LinkOk(cq[q], link, k);
        prev := cur;
        cur := link[cur.value];
        k := k + 1;
      }
    }

    /** Take the k-th process, found by Find, off the queue of q. */
    method Cut(q: nat, prev: Option<nat>, p: nat, ghost k: nat)
      requires Valid() && q < |cq| && q !in stale && k < |cq[q]| && cq[q][k] == p
      requires prev == if k == 0 then None else Some(cq[q][k - 1])
      modifies this`first, this`link, this`cq
      ensures Valid() && cq == old(cq)[q := RemoveAt(old(cq)[q], k)] && Nowhere(Current(cq, stale), p)
    {
      ghost var ls := Current(cq, stale);
      CutHeads(ls, first, link, stale, q, k);
      CutSeparate(ls, q, k);
      hide HeadsOk, Separate;
      if prev.None? {
        first := first[q := link[p]];
      } else {
        link := link[prev.value := link[p]];
      }
      cq := cq[q := RemoveAt(cq[q], k)];
      assert Current(cq, stale) == ls[q := RemoveAt(ls[q], k)];
    }

    /** Search the queue of q for p, which is in it, and take it off. */
    method Remove(q: nat, p: nat)
      requires Valid() && q < |cq| && q !in stale && p in cq[q]
      modifies this`first, this`link, this`cq
      ensures Valid() && cq == old(cq)[q := RemoveAt(old(cq)[q], IndexOf(old(cq)[q], p))]
    {
      var prev, cur, k := Find(q, Some(p));
      FoundIndex(cq[q], p);
      Cut(q, prev, p, k);
    }

    /** Some owners are dead: their queues are not touched, but no longer promise anything. */
    ghost method Abandon(dead: set<nat>)
      requires Valid() && stale <= dead
      modifies this`stale
      ensures Valid() && stale == dead
    {
      AbandonSeparate(cq, stale, dead);
      stale := dead;
    }

    /** do_fork copies both pointers of the parent p to the child c. */
    method Copy(p: nat, c: nat)
      requires Valid() && p < |cq| && c < |cq| && p != c && p !in stale && cq[p] == [] && Nowhere(Current(cq, stale), c)
      modifies this`first, this`link, this`cq, this`stale
      ensures Valid() && cq == old(cq)[c := old(cq)[p]] && stale == old(stale) - {c}
    {
      ghost var ls := Current(cq, stale);
      forall q | 0 <= q < |cq| && q !in stale ensures Chain(ls[q], first[q], link[c := link[p]]) {
        ChainFrame(ls[q], first[q], link, c, link[p]);
      }
      first := first[c := first[p]];
      link := link[c := link[p]];
      cq := cq[c := cq[p]];
      stale := stale - {c};
      assert Current(cq, stale) == ls[c := []];
    }
  }

  lemma AddedSeparate(ls: seq<seq<nat>>, q: nat, p: nat)
    requires Separate(ls) && Nowhere(ls, p) && q < |ls|
    ensures Separate(ls[q := ls[q] + [p]])
  {
  }

  lemma AddedWithin(ls: seq<seq<nat>>, q: nat, p: nat)
    requires q < |ls| && p < |ls| && Within(ls, |ls|)
    ensures Within(ls[q := ls[q] + [p]], |ls|)
  {
  }

  lemma AbandonSeparate(cq: seq<seq<nat>>, stale: set<nat>, dead: set<nat>)
    requires Separate(Current(cq, stale)) && stale <= dead
    ensures Separate(Current(cq, dead))
  {
  }

  /** The wanted process is where IndexOf says. */
  lemma FoundIndex(q: seq<nat>, x: nat)
    requires x in q
    ensures FindCaller(q, Some(x), 0) == IndexOf(q, x)
  {
    var k := IndexOf(q, x);
    assert q[k] == x;
  }
}
