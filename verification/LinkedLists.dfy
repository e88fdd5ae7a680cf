/** Several singly linked lists through one table of links. */
module LinkedLists {
  import opened KernelTypes

  /** The j-th node of l points to the one after it. */
  ghost predicate LinkOk(l: seq<nat>, next: seq<Option<nat>>, j: nat)
    requires j < |l|
  {
    l[j] < |next| && next[l[j]] == if j + 1 < |l| then Some(l[j + 1]) else None
  }

  /** The list l starts at head and is linked by next. */
  ghost predicate Chain(l: seq<nat>, head: Option<nat>, next: seq<Option<nat>>) {
    && head == (if l == [] then None else Some(l[0]))
    && forall j :: 0 <= j < |l| ==> LinkOk(l, next, j)
  }

  /** No node is on two lists, or twice on one. */
  ghost predicate Separate(ls: seq<seq<nat>>) {
    && (forall q :: 0 <= q < |ls| ==> Distinct(ls[q]))
    && (forall q, r, x: nat :: 0 <= q < r < |ls| && x in ls[q] ==> x !in ls[r])
  }

  ghost predicate Nowhere(ls: seq<seq<nat>>, p: nat) {
    forall q :: 0 <= q < |ls| ==> p !in ls[q]
  }

  /** Links of nodes outside the list do not matter. */
  lemma ChainFrame(l: seq<nat>, head: Option<nat>, next: seq<Option<nat>>, p: nat, v: Option<nat>)
    requires Chain(l, head, next) && p !in l && p < |next|
    ensures Chain(l, head, next[p := v])
  {
    var n := next[p := v];
    forall j | 0 <= j < |l| ensures LinkOk(l, n, j) {
      assert LinkOk(l, next, j) && l[j] in l;
    }
  }

  lemma ChainFront(l: seq<nat>, head: Option<nat>, next: seq<Option<nat>>, p: nat)
    requires Chain(l, head, next) && p !in l && p < |next|
    ensures Chain([p] + l, Some(p), next[p := head])
  {
    ChainFrame(l, head, next, p, head);
    var m := [p] + l;
    var n := next[p := head];
    forall j | 0 <= j < |m| ensures LinkOk(m, n, j) {
      if j > 0 { assert LinkOk(l, n, j - 1); }
    }
  }

  lemma ChainBack(l: seq<nat>, head: Option<nat>, next: seq<Option<nat>>, p: nat)
    requires Chain(l, head, next) && Distinct(l) && p !in l && p < |next| && l != [] && l[|l| - 1] < |next|
    ensures Chain(l + [p], head, next[l[|l| - 1] := Some(p)][p := None])
  {
    var m := l + [p];
    var n := next[l[|l| - 1] := Some(p)][p := None];
    forall j | 0 <= j < |m| ensures LinkOk(m, n, j) {
      if j < |l| { assert LinkOk(l, next, j) && l[j] in l; }
    }
  }

  /** The k-th node is bypassed. */
  lemma ChainCut(l: seq<nat>, head: Option<nat>, next: seq<Option<nat>>, k: nat)
    requires Chain(l, head, next) && Distinct(l) && k < |l| && forall j :: 0 <= j < |l| ==> l[j] < |next|
    ensures k == 0 ==> Chain(RemoveAt(l, k), next[l[0]], next)
    ensures k > 0 ==> Chain(RemoveAt(l, k), head, next[l[k - 1] := next[l[k]]])
  {
    var m := RemoveAt(l, k);
    assert LinkOk(l, next, k);
    var n := if k == 0 then next else next[l[k - 1] := next[l[k]]];
    forall j | 0 <= j < |m| ensures LinkOk(m, n, j) {
      assert LinkOk(l, next, if j < k then j else j + 1);
    }
  }

  /** Heads and links agree with the lists, those of stale owners apart. */
  ghost predicate HeadsOk(ls: seq<seq<nat>>, head: seq<Option<nat>>, next: seq<Option<nat>>, stale: set<nat>) {
    |head| == |ls| && forall q :: 0 <= q < |ls| && q !in stale ==> Chain(ls[q], head[q], next)
  }

  /** Node p is added at the end of list q, and is its new head if it was empty. */
  lemma BackHeads(ls: seq<seq<nat>>, head: seq<Option<nat>>, next: seq<Option<nat>>, stale: set<nat>, q: nat, p: nat)
    requires HeadsOk(ls, head, next, stale) && Separate(ls) && Nowhere(ls, p) && p < |next| && q < |ls| && q !in stale
    ensures ls[q] == [] ==> HeadsOk(ls[q := ls[q] + [p]], head[q := Some(p)], next[p := None], stale)
    ensures ls[q] != [] ==>
              && ls[q][|ls[q]| - 1] < |next|
              && HeadsOk(ls[q := ls[q] + [p]], head, next[ls[q][|ls[q]| - 1] := Some(p)][p := None], stale)
  {
    var l := ls[q];
    if l == [] {
      var n := next[p := None];
      forall r | 0 <= r < |ls| && r != q && r !in stale ensures Chain(ls[r], head[r], n) {
        ChainFrame(ls[r], head[r], next, p, None);
      }
      assert l + [p] == [p];
    } else {
      var t := l[|l| - 1];
      assert LinkOk(l, next, |l| - 1) && t in l;
      ChainBack(l, head[q], next, p);
      var n := next[t := Some(p)][p := None];
      forall r | 0 <= r < |ls| && r != q && r !in stale ensures Chain(ls[r], head[r], n) {
        ChainFrame(ls[r], head[r], next, t, Some(p));
        ChainFrame(ls[r], head[r], next[t := Some(p)], p, None);
      }
    }
  }

  lemma FrontHeads(ls: seq<seq<nat>>, head: seq<Option<nat>>, next: seq<Option<nat>>, stale: set<nat>, q: nat, p: nat)
    requires HeadsOk(ls, head, next, stale) && Separate(ls) && Nowhere(ls, p) && p < |next| && q < |ls| && q !in stale
    ensures HeadsOk(ls[q := [p] + ls[q]], head[q := Some(p)], next[p := head[q]], stale)
  {
    ChainFront(ls[q], head[q], next, p);
    var n := next[p := head[q]];
    forall r | 0 <= r < |ls| && r != q && r !in stale ensures Chain(ls[r], head[r], n) {
      ChainFrame(ls[r], head[r], next, p, head[q]);
    }
  }

  /** The k-th node of list q is bypassed. */
  lemma CutHeads(ls: seq<seq<nat>>, head: seq<Option<nat>>, next: seq<Option<nat>>, stale: set<nat>, q: nat, k: nat)
    requires HeadsOk(ls, head, next, stale) && Separate(ls) && q < |ls| && q !in stale && k < |ls[q]|
    ensures forall j :: 0 <= j < |ls[q]| ==> ls[q][j] < |next|
    ensures k == 0 ==> HeadsOk(ls[q := RemoveAt(ls[q], k)], head[q := next[ls[q][k]]], next, stale)
    ensures k > 0 ==> HeadsOk(ls[q := RemoveAt(ls[q], k)], head, next[ls[q][k - 1] := next[ls[q][k]]], stale)
  {
    var l := ls[q];
    forall j | 0 <= j < |l| ensures l[j] < |next| { assert LinkOk(l, next, j); }
    ChainCut(l, head[q], next, k);
    hide Chain;
    if k > 0 {
      var n := next[l[k - 1] := next[l[k]]];
      forall r | 0 <= r < |ls| && r != q && r !in stale ensures Chain(ls[r], head[r], n) {
        assert l[k - 1] in l;
        ChainFrame(ls[r], head[r], next, l[k - 1], next[l[k]]);
      }
    }
  }

  lemma CutSeparate(ls: seq<seq<nat>>, q: nat, k: nat)
    requires Separate(ls) && q < |ls| && k < |ls[q]|
    ensures Separate(ls[q := RemoveAt(ls[q], k)]) && Nowhere(ls[q := RemoveAt(ls[q], k)], ls[q][k])
    ensures forall x: nat :: x in RemoveAt(ls[q], k) <==> x in ls[q] && x != ls[q][k]
    ensures IndexOf(ls[q], ls[q][k]) == k
  {
    RemoveAtElements(ls[q], k);
    assert ls[q][k] in ls[q];
  }
}
