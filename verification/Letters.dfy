/** History of the synchronous messages: every accepted letter is delivered once,
    dropped once, or still held by one blocked sender. */
module Letters {
  import opened KernelTypes
  import opened Ipc
  import opened IpcInv

  /** p is blocked sending letter n. */
  ghost predicate Holds(i: Ipc, p: nat, n: nat) {
    p < |i.procs| && Sending in i.procs[p].rts && i.procs[p].sendId == n
  }

  ghost predicate DeliveredOnce(h: History, n: nat) {
    exists a :: 0 <= a < |h.delivered| && h.delivered[a].id == n
  }

  /** What is delivered is what was sent, to whom it was sent, from whom it came. */
  ghost predicate Faithful(i: Ipc) {
    var h := i.hist;
    && (forall a :: 0 <= a < |h.delivered| ==>
          var d := h.delivered[a];
          d.id < |h.letters| && h.letters[d.id] == Letter(d.message.source, d.to, d.message.content))
    && (forall a :: 0 <= a < |h.dropped| ==> h.dropped[a] < |h.letters|)
    && (forall p :: 0 <= p < |i.procs| && Sending in i.procs[p].rts ==> HoldsLetter(i, p))
  }

  /** Nothing happens to a letter twice. */
  ghost predicate Once(i: Ipc) {
    var h := i.hist;
    && (forall a, b :: 0 <= a < b < |h.delivered| ==> h.delivered[a].id != h.delivered[b].id)
    && Distinct(h.dropped)
    && (forall a, b :: 0 <= a < |h.delivered| && 0 <= b < |h.dropped| ==> h.delivered[a].id != h.dropped[b])
    && (forall p, a :: 0 <= p < |i.procs| && Sending in i.procs[p].rts && 0 <= a < |h.delivered| ==>
          i.procs[p].sendId != h.delivered[a].id)
    && (forall p, a :: 0 <= p < |i.procs| && Sending in i.procs[p].rts && 0 <= a < |h.dropped| ==>
          i.procs[p].sendId != h.dropped[a])
    && (forall p, q :: 0 <= p < q < |i.procs| && Sending in i.procs[p].rts && Sending in i.procs[q].rts ==>
          i.procs[p].sendId != i.procs[q].sendId)
  }

  /** No letter is lost. */
  ghost predicate NoneLost(i: Ipc) {
    forall n :: 0 <= n < |i.hist.letters| ==> Accounted(i, n)
  }

  /** Caller queues of live processes are in blocking order. */
  ghost predicate Ordered(i: Ipc) {
    forall q, a, b :: 0 <= q < |i.cq| && q < |i.procs| && Live(i.procs[q]) && 0 <= a < b < |i.cq[q]| ==>
      Before(i, i.cq[q][a], i.cq[q][b])
  }

  ghost predicate LetterInv(i: Ipc) {
    Faithful(i) && Once(i) && NoneLost(i) && Ordered(i)
  }

  ghost predicate Before(i: Ipc, x: nat, y: nat) {
    x < |i.procs| && y < |i.procs| && i.procs[x].sendId < i.procs[y].sendId
  }

  ghost predicate HoldsLetter(i: Ipc, p: nat)
    requires p < |i.procs|
  {
    var x := i.procs[p];
    x.sendId < |i.hist.letters| && i.hist.letters[x.sendId] == Letter(x.endpoint, x.sendTo, x.sendMsg)
  }

  ghost predicate Accounted(i: Ipc, n: nat) {
    DeliveredOnce(i.hist, n) || n in i.hist.dropped || exists p: nat :: Holds(i, p, n)
  }

  /** The letter part of two states is the same. */
  ghost predicate SameLetters(i: Ipc, j: Ipc) {
    && |i.procs| == |j.procs| && i.cq == j.cq
    && i.hist.letters == j.hist.letters && i.hist.delivered == j.hist.delivered
    && i.hist.dropped == j.hist.dropped
    && forall p :: 0 <= p < |i.procs| ==> SameSend(i.procs[p], j.procs[p])
  }

  ghost predicate SameSend(x: Proc, y: Proc) {
    && (Sending in x.rts <==> Sending in y.rts)
    && x.endpoint == y.endpoint && x.sendTo == y.sendTo && x.sendMsg == y.sendMsg && x.sendId == y.sendId
    && (Live(y) <==> Live(x))
  }

  lemma SameLettersInv(i: Ipc, j: Ipc)
    requires LetterInv(i) && SameLetters(i, j)
    ensures LetterInv(j)
  {
    forall p | 0 <= p < |i.procs| ensures SameSend(i.procs[p], j.procs[p]) {}
    forall p | 0 <= p < |j.procs| && Sending in j.procs[p].rts ensures HoldsLetter(j, p) {
      assert HoldsLetter(i, p);
    }
    forall n | 0 <= n < |j.hist.letters| ensures Accounted(j, n) {
      assert Accounted(i, n);
      if p: nat :| Holds(i, p, n) {
        assert Holds(j, p, n);
      }
    }
    forall q, a, b | 0 <= q < |j.cq| && q < |j.procs| && Live(j.procs[q]) && 0 <= a < b < |j.cq[q]|
      ensures Before(j, j.cq[q][a], j.cq[q][b])
    {
      assert Before(i, i.cq[q][a], i.cq[q][b]);
    }
  }

  /** A letter accepted and delivered at once. */
  lemma DeliverLetterInv(i: Ipc, c: nat, d: nat, content: Content)
    requires LetterInv(i) && c < |i.procs| && d < |i.procs|
    ensures LetterInv(UnsetFlags(DeliverLetter(i, c, d, content), d, {Receiving}))
  {
    var j := UnsetFlags(DeliverLetter(i, c, d, content), d, {Receiving});
    var h, h' := i.hist, j.hist;
    forall p | 0 <= p < |i.procs| ensures SameSend(i.procs[p], j.procs[p]) {}
    forall p | 0 <= p < |j.procs| && Sending in j.procs[p].rts ensures HoldsLetter(j, p) {
      assert HoldsLetter(i, p);
    }
    forall n | 0 <= n < |h'.letters| ensures Accounted(j, n) {
      if n == |h.letters| {
        assert h'.delivered[|h.delivered|].id == n;
      } else {
        assert Accounted(i, n);
        if DeliveredOnce(h, n) {
          var a :| 0 <= a < |h.delivered| && h.delivered[a].id == n;
          assert h'.delivered[a].id == n;
        } else if p: nat :| Holds(i, p, n) {
          assert Holds(j, p, n);
        }
      }
    }
    forall q, a, b | 0 <= q < |j.cq| && q < |j.procs| && Live(j.procs[q]) && 0 <= a < b < |j.cq[q]|
      ensures Before(j, j.cq[q][a], j.cq[q][b])
    {
      assert Before(i, i.cq[q][a], i.cq[q][b]);
    }
  }

  /** A letter accepted and queued. */
  lemma QueueLetterInv(i: Ipc, c: nat, dst: Endpoint, content: Content)
    requires CoreInv(i) && LetterInv(i) && c < |i.procs| && Sending !in i.procs[c].rts
    requires dst.Ep? && 0 <= dst.slot < |i.procs| && Live(i.procs[dst.slot])
    ensures LetterInv(QueueLetter(SetFlags(i, c, {Sending}), c, dst, content))
  {
    var j := QueueLetter(SetFlags(i, c, {Sending}), c, dst, content);
    var h, h' := i.hist, j.hist;
    forall p | 0 <= p < |i.procs| && p != c ensures SameSend(i.procs[p], j.procs[p]) {}
    forall p | 0 <= p < |j.procs| && Sending in j.procs[p].rts ensures HoldsLetter(j, p) {
      if p != c { assert HoldsLetter(i, p); }
    }
    forall n | 0 <= n < |h'.letters| ensures Accounted(j, n) {
      if n == |h.letters| {
        assert Holds(j, c, n);
      } else {
        assert Accounted(i, n);
        if p: nat :| Holds(i, p, n) {
          assert Holds(j, p, n);
        }
      }
    }
    forall q, a, b | 0 <= q < |j.cq| && q < |j.procs| && Live(j.procs[q]) && 0 <= a < b < |j.cq[q]|
      ensures Before(j, j.cq[q][a], j.cq[q][b])
    {
      assert i.cq[q][a] in i.cq[q] && HoldsLetter(i, i.cq[q][a]);
      if q != dst.slot || b < |i.cq[q]| {
        assert i.cq[q][b] in i.cq[q];
        assert Before(i, i.cq[q][a], i.cq[q][b]);
      }
    }
  }

  /** The letter of the k-th process queued at c is delivered. */
  lemma UnlinkInv(i: Ipc, c: nat, k: nat)
    requires CoreInv(i) && LetterInv(i) && c < |i.procs| && Live(i.procs[c]) && k < |i.cq[c]|
    ensures LetterInv(Unlink(UnsetFlags(i, i.cq[c][k], {Sending}), c, k))
  {
    var x := i.cq[c][k];
    var j := Unlink(UnsetFlags(i, x, {Sending}), c, k);
    assert x in i.cq[c];
    assert SendsTo(i, x, c) && HoldsLetter(i, x);
    LetterLeaves(i, j, x);
    forall a | 0 <= a < |j.hist.delivered|
      ensures var d := j.hist.delivered[a];
              d.id < |i.hist.letters| && i.hist.letters[d.id] == Letter(d.message.source, d.to, d.message.content)
    {
      if a < |i.hist.delivered| { assert j.hist.delivered[a] == i.hist.delivered[a]; }
    }
    RemoveAtElements(i.cq[c], k);
    forall q, a, b | 0 <= q < |j.cq| && q < |j.procs| && Live(j.procs[q]) && 0 <= a < b < |j.cq[q]|
      ensures Before(j, j.cq[q][a], j.cq[q][b])
    {
      if q == c {
        var a', b' := if a < k then a else a + 1, if b < k then b else b + 1;
        assert Before(i, i.cq[q][a'], i.cq[q][b']);
      } else {
        assert Before(i, i.cq[q][a], i.cq[q][b]);
      }
    }
  }

  /** x stops sending and its letter is noted as delivered. */
  lemma LetterLeaves(i: Ipc, j: Ipc, x: nat)
    requires LetterInv(i) && x < |i.procs| == |j.procs| && Sending in i.procs[x].rts && Sending !in j.procs[x].rts
    requires forall p :: 0 <= p < |i.procs| && p != x ==> SameSend(i.procs[p], j.procs[p])
    requires j.hist.letters == i.hist.letters && j.hist.dropped == i.hist.dropped
    requires |j.hist.delivered| == |i.hist.delivered| + 1
    requires j.hist.delivered[..|i.hist.delivered|] == i.hist.delivered
    requires j.hist.delivered[|i.hist.delivered|].id == i.procs[x].sendId
    ensures Once(j) && NoneLost(j)
    ensures forall p :: 0 <= p < |j.procs| && Sending in j.procs[p].rts ==> HoldsLetter(j, p)
  {
    var h, h' := i.hist, j.hist;
    forall a | 0 <= a < |h.delivered| ensures h'.delivered[a] == h.delivered[a] {
      assert h'.delivered[..|h.delivered|][a] == h'.delivered[a];
    }
    forall p | 0 <= p < |j.procs| && Sending in j.procs[p].rts ensures HoldsLetter(j, p) {
      assert SameSend(i.procs[p], j.procs[p]) && HoldsLetter(i, p);
    }
    forall n | 0 <= n < |h'.letters| ensures Accounted(j, n) {
      assert Accounted(i, n);
      if DeliveredOnce(h, n) {
        var a :| 0 <= a < |h.delivered| && h.delivered[a].id == n;
        assert h'.delivered[a].id == n;
      } else if p: nat :| Holds(i, p, n) {
        if p == x {
          assert h'.delivered[|h.delivered|].id == n;
        } else {
          assert Holds(j, p, n);
        }
      }
    }
  }

  /** Some blocked senders are released and their letters dropped. */
  lemma LettersDropped(i: Ipc, j: Ipc, gone: seq<nat>)
    requires LetterInv(i) && |j.procs| == |i.procs| && Distinct(gone)
    requires j.hist.letters == i.hist.letters && j.hist.delivered == i.hist.delivered
    requires j.hist.dropped == i.hist.dropped + gone
    requires forall a :: 0 <= a < |gone| ==> exists p: nat :: Holds(i, p, gone[a]) && Sending !in j.procs[p].rts
    requires forall p :: 0 <= p < |i.procs| ==>
               && (Sending in j.procs[p].rts ==> SameSend(i.procs[p], j.procs[p]))
               && (Sending in i.procs[p].rts && Sending !in j.procs[p].rts ==> i.procs[p].sendId in gone)
    ensures Faithful(j) && Once(j) && NoneLost(j)
  {
    var h, h' := i.hist, j.hist;
    forall a | 0 <= a < |gone|
      ensures gone[a] < |h.letters| && gone[a] !in h.dropped
      ensures forall b :: 0 <= b < |h.delivered| ==> h.delivered[b].id != gone[a]
      ensures forall p :: 0 <= p < |j.procs| && Sending in j.procs[p].rts ==> j.procs[p].sendId != gone[a]
    {
      var p: nat :| Holds(i, p, gone[a]) && Sending !in j.procs[p].rts;
      assert HoldsLetter(i, p);
    }
    forall p | 0 <= p < |j.procs| && Sending in j.procs[p].rts ensures HoldsLetter(j, p) {
      assert HoldsLetter(i, p);
    }
    forall n | 0 <= n < |h'.letters| ensures Accounted(j, n) {
      assert Accounted(i, n);
      if p: nat :| Holds(i, p, n) {
        if Sending in j.procs[p].rts { assert Holds(j, p, n); }
      }
    }
  }
}
