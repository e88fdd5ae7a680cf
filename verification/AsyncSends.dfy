/** Privilege structures: masks, pending notifications and SENDA tables. */
module AsyncSends {
  import opened KernelTypes
  import opened Ipc
  import opened IpcInv

  // ----------------------------------------------------------------- privileges

  /** System processes own their structure and INIT that of all users, nobody may send to himself, only owned
      structures have notifications pending at a process in use, and a privileged
      process that waits for ANY has none pending. */
  ghost predicate PrivInv(i: Ipc)
    requires IpcShape(i)
  {
    && i.privs[USER_PRIV_ID].owner == Some(INIT) && SysProc !in i.privs[USER_PRIV_ID].flags
    && (forall k :: 0 <= k < |i.privs| ==> k !in i.privs[k].ipcTo)
    && (forall p :: 0 <= p < |i.procs| ==> PrivOk(i, p))
    && (forall k :: 0 <= k < |i.privs| ==> OwnerOk(i, k))
  }

  /** A structure and its owner refer to each other; that of the users outlives INIT. */
  ghost predicate OwnerOk(i: Ipc, k: nat)
    requires IpcShape(i) && k < |i.privs|
  {
    i.privs[k].owner.Some? ==>
      var x := i.procs[i.privs[k].owner.value];
      x.privId == k && (k != USER_PRIV_ID ==> SlotFree !in x.rts)
  }

  ghost predicate PrivOk(i: Ipc, p: nat)
    requires IpcShape(i) && p < |i.procs|
  {
    var x := i.procs[p];
    var bits := i.privs[x.privId].notifyPending;
    && (SlotFree !in x.rts && x.privId != USER_PRIV_ID ==>
          i.privs[x.privId].owner == Some(p) && SysProc in i.privs[x.privId].flags)
    && (SlotFree !in x.rts ==> forall id :: id in bits ==> id < NR_SYS_PROCS && i.privs[id].owner.Some?)
    && (Receiving in x.rts && x.getFrom == ANY && x.privId != USER_PRIV_ID ==> bits == {})
  }

  // ---------------------------------------------------------- asynchronous sends

  /** A pending element names a slot that exists, of a generation that has been seen,
      and if that is live the element is permitted and its receiver has been told. */
  ghost predicate ElementOk(i: Ipc, k: nat, e: AsynEntry)
    requires k < |i.privs|
  {
    && e.dst.Ep? && 0 <= e.dst.slot < |i.procs|
    && i.procs[e.dst.slot].endpoint.Ep? && e.dst.gen <= i.procs[e.dst.slot].endpoint.gen
    && (NamesLive(i, e.dst) ==>
          && AsynMsg in i.procs[e.dst.slot].misc
          && i.procs[e.dst.slot].privId in i.privs[k].ipcTo)
  }

  ghost predicate TableOk(i: Ipc, k: nat)
    requires k < |i.privs|
  {
    var v := i.privs[k];
    v.asyn != [] ==>
      && SysProc in v.flags && v.serial <= i.hist.serial
      && v.owner.Some? && v.owner.value < |i.procs| && i.procs[v.owner.value].privId == k
      && (forall n :: 0 <= n < |v.asyn| ==> !BadFlags(v.asyn[n]))
      && (forall n :: 0 <= n < |v.asyn| && Undone(v.asyn[n]) ==> ElementOk(i, k, v.asyn[n]))
  }

  /** Elements already sent are marked, and none was sent twice. */
  ghost predicate SentOk(i: Ipc) {
    && Distinct(i.hist.asynSent)
    && (forall a :: 0 <= a < |i.hist.asynSent| ==> i.hist.asynSent[a].0 <= i.hist.serial)
    && (forall k, a :: 0 <= k < |i.privs| && 0 <= a < |i.hist.asynSent| ==> Marked(i.privs[k], i.hist.asynSent[a]))
    && (forall k, m :: 0 <= k < m < |i.privs| && i.privs[k].asyn != [] && i.privs[m].asyn != [] ==>
          i.privs[k].serial != i.privs[m].serial)
  }

  ghost predicate Marked(v: Priv, sent: (nat, nat)) {
    v.asyn != [] && v.serial == sent.0 && sent.1 < |v.asyn| ==> Done in v.asyn[sent.1].flags
  }

  ghost predicate AsyncInv(i: Ipc) {
    (forall k :: 0 <= k < |i.privs| ==> TableOk(i, k)) && SentOk(i)
  }

  /** j's tables, masks and owners are i's, its live endpoints are among i's, and no
      receiver forgets that something is pending for it. */
  ghost predicate SameTables(i: Ipc, j: Ipc) {
    && |i.procs| == |j.procs| && |i.privs| == |j.privs|
    && i.hist.asynSent == j.hist.asynSent && i.hist.serial == j.hist.serial
    && (forall k :: 0 <= k < |i.privs| ==> SameTable(i.privs[k], j.privs[k]))
    && (forall p :: 0 <= p < |i.procs| ==> StillTold(i.procs[p], j.procs[p]))
  }

  ghost predicate SameTable(v: Priv, w: Priv) {
    v.asyn == w.asyn && v.serial == w.serial && v.owner == w.owner && v.flags == w.flags && v.ipcTo == w.ipcTo
  }

  ghost predicate StillTold(x: Proc, y: Proc) {
    && x.endpoint == y.endpoint && x.privId == y.privId
    && (Live(y) ==> Live(x)) && (AsynMsg in x.misc ==> AsynMsg in y.misc)
  }

  lemma SameTablesInv(i: Ipc, j: Ipc)
    requires AsyncInv(i) && SameTables(i, j)
    ensures AsyncInv(j)
  {
    forall k | 0 <= k < |j.privs| ensures TableOk(j, k) {
      assert TableOk(i, k) && SameTable(i.privs[k], j.privs[k]);
      forall n | 0 <= n < |j.privs[k].asyn| && Undone(j.privs[k].asyn[n]) ensures ElementOk(j, k, j.privs[k].asyn[n]) {
        var e := j.privs[k].asyn[n];
        assert ElementOk(i, k, e);
        assert StillTold(i.procs[e.dst.slot], j.procs[e.dst.slot]);
      }
      if i.privs[k].asyn != [] {
        assert StillTold(i.procs[i.privs[k].owner.value], j.procs[i.privs[k].owner.value]);
      }
    }
    forall k | 0 <= k < |j.privs| ensures SameTable(i.privs[k], j.privs[k]) {}
    forall k, a | 0 <= k < |j.privs| && 0 <= a < |j.hist.asynSent| ensures Marked(j.privs[k], j.hist.asynSent[a]) {
      assert Marked(i.privs[k], i.hist.asynSent[a]);
    }
  }

  /** Table k is dropped. */
  lemma DropTable(i: Ipc, j: Ipc, k: nat)
    requires AsyncInv(i) && k < |i.privs| && j.hist == i.hist && j.procs == i.procs
    requires j.privs == i.privs[k := i.privs[k].(asyn := [])]
    ensures AsyncInv(j)
  {
    forall m | 0 <= m < |j.privs| ensures TableOk(j, m) {
      assert TableOk(i, m);
      forall n | 0 <= n < |j.privs[m].asyn| && Undone(j.privs[m].asyn[n]) ensures ElementOk(j, m, j.privs[m].asyn[n]) {
        assert ElementOk(i, m, j.privs[m].asyn[n]);
      }
    }
    forall m, a | 0 <= m < |j.privs| && 0 <= a < |j.hist.asynSent| ensures Marked(j.privs[m], j.hist.asynSent[a]) {
      assert Marked(i.privs[m], i.hist.asynSent[a]);
    }
  }

  /** Element n of table k is sent. */
  lemma SendElement(i: Ipc, j: Ipc, k: nat, n: nat)
    requires AsyncInv(i) && k < |i.privs| && n < |i.privs[k].asyn| && Undone(i.privs[k].asyn[n])
    requires j.privs == i.privs[k := i.privs[k].(asyn := i.privs[k].asyn[n := MarkDone(i.privs[k].asyn[n], OK)])]
    requires j.hist == i.hist.(asynSent := i.hist.asynSent + [(i.privs[k].serial, n)])
    requires |i.procs| == |j.procs| && forall p :: 0 <= p < |i.procs| ==> StillTold(i.procs[p], j.procs[p])
    ensures AsyncInv(j)
  {
    var sent := (i.privs[k].serial, n);
    assert TableOk(i, k);
    forall a | 0 <= a < |i.hist.asynSent| ensures i.hist.asynSent[a] != sent {
      assert Marked(i.privs[k], i.hist.asynSent[a]);
    }
    forall m | 0 <= m < |j.privs| ensures TableOk(j, m) {
      assert TableOk(i, m);
      forall x | 0 <= x < |j.privs[m].asyn| && Undone(j.privs[m].asyn[x]) ensures ElementOk(j, m, j.privs[m].asyn[x]) {
        var e := j.privs[m].asyn[x];
        assert e == i.privs[m].asyn[x];
        assert ElementOk(i, m, e);
        assert StillTold(i.procs[e.dst.slot], j.procs[e.dst.slot]);
      }
      if j.privs[m].asyn != [] {
        assert StillTold(i.procs[i.privs[m].owner.value], j.procs[i.privs[m].owner.value]);
      }
      forall x | 0 <= x < |j.privs[m].asyn| ensures !BadFlags(j.privs[m].asyn[x]) {
        assert !BadFlags(i.privs[m].asyn[x]);
      }
    }
    forall m, a | 0 <= m < |j.privs| && 0 <= a < |j.hist.asynSent| ensures Marked(j.privs[m], j.hist.asynSent[a]) {
      if a < |i.hist.asynSent| {
        assert Marked(i.privs[m], i.hist.asynSent[a]);
      }
    }
  }

  // ------------------------------------------------------- try_one and try_async

  /** try_one looks at the table of structure k for c. */
  predicate Looks(i: Ipc, k: nat, c: nat)
    requires k < |i.privs| && c < |i.procs|
  {
    k != USER_PRIV_ID && i.privs[k].asyn != [] && i.procs[c].privId in i.privs[k].ipcTo
  }

  /** It finds an element to hand over. */
  predicate Finds(i: Ipc, k: nat, c: nat, io: Access)
    requires k < |i.privs| && c < |i.procs|
  {
    Looks(i, k, c) && Scanned(i, k, c, io).Found?
  }

  /** It hands an element over and then cannot mark it. */
  predicate Unmarked(i: Ipc, k: nat, c: nat, io: Access)
    requires k < |i.privs| && c < |i.procs|
  {
    Finds(i, k, c, io) && Faults(io, k, Scanned(i, k, c, io).k, NoMark)
  }

  /** It postpones an element, and finds none. */
  predicate Postpones(i: Ipc, k: nat, c: nat, io: Access)
    requires k < |i.privs| && c < |i.procs|
  {
    Looks(i, k, c) &&
    match Scanned(i, k, c, io)
    case Bad(late) => late
    case Faulted(late) => late
    case NotFound(done, postponed) => postponed
    case Found(n, late) => false
  }

  /** Nothing in table k is waiting for c. */
  ghost predicate NothingFor(i: Ipc, c: nat, k: nat)
    requires c < |i.procs| && k < |i.privs|
  {
    forall n :: 0 <= n < |i.privs[k].asyn| && Undone(i.privs[k].asyn[n]) ==>
      i.privs[k].asyn[n].dst != i.procs[c].endpoint
  }

  /** A copy from table k faults and an element for c stays unseen. */
  ghost predicate Hides(i: Ipc, k: nat, c: nat, io: Access)
    requires k < |i.privs| && c < |i.procs|
  {
    Looks(i, k, c) && Scanned(i, k, c, io).Faulted? && !NothingFor(i, c, k)
  }

  /** try_one on the table of k's owner, case by case. */
  lemma TryOneCases(i: Ipc, k: nat, c: nat, io: Access)
    requires IpcShape(i) && PrivInv(i) && k < |i.privs| && c < |i.procs| && i.privs[k].owner.Some?
    ensures var r := TryOne(i, i.privs[k].owner.value, c, io);
            && i.procs[i.privs[k].owner.value].privId == k
            && (r.1 == OK <==> Finds(i, k, c, io) && !Unmarked(i, k, c, io))
            && (!Finds(i, k, c, io) ==> Fewer(i, r.0) && (r.2 <==> Postpones(i, k, c, io)))
            && (Unmarked(i, k, c, io) ==> r.0 == Sent(i, k, Scanned(i, k, c, io).k, i.privs[k].owner.value, c))
            && (forall m :: 0 <= m < |i.privs| && m != k ==> |r.0.privs| == |i.privs| && r.0.privs[m] == i.privs[m])
  {
    assert OwnerOk(i, k);
  }

  lemma TryOneAsync(i: Ipc, src: nat, c: nat, io: Access)
    requires IpcShape(i) && AsyncInv(i) && src < |i.procs| && c < |i.procs|
    requires !Unmarked(i, i.procs[src].privId, c, io)
    ensures AsyncInv(TryOne(i, src, c, io).0)
  {
    var k := i.procs[src].privId;
    var v := i.privs[k];
    assert TableOk(i, k);
    var j := TryOne(i, src, c, io).0;
    if Looks(i, k, c) {
      var r := Scanned(i, k, c, io);
      if r.Found? {
        SendElement(i, j, k, r.k);
      } else if r.NotFound? && r.done {
        DropTable(i, j, k);
      }
    }
  }

  /** An element that was sent and not marked may be sent again. */
  lemma UnmarkedBreaks(i: Ipc, j: Ipc, k: nat, c: nat, io: Access, src: nat)
    requires k < |i.privs| == |j.privs| && c < |i.procs| && src < |i.procs|
    requires Unmarked(i, k, c, io) && j.privs[k] == i.privs[k]
    requires Sent(i, k, Scanned(i, k, c, io).k, src, c).hist.asynSent <= j.hist.asynSent
    ensures !AsyncInv(j)
  {
    var sent := (i.privs[k].serial, Scanned(i, k, c, io).k);
    assert j.hist.asynSent[|i.hist.asynSent|] == sent;
    assert !Marked(j.privs[k], j.hist.asynSent[|i.hist.asynSent|]);
  }

  /** try_one with one source keeps the invariant exactly if it does not hand over an element
      that it cannot mark. */
  lemma TryOneExact(i: Ipc, src: nat, c: nat, io: Access)
    requires IpcShape(i) && AsyncInv(i) && src < |i.procs| && c < |i.procs|
    ensures AsyncInv(TryOne(i, src, c, io).0) <==> !Unmarked(i, i.procs[src].privId, c, io)
  {
    if Unmarked(i, i.procs[src].privId, c, io) {
      UnmarkedBreaks(i, TryOne(i, src, c, io).0, i.procs[src].privId, c, io, src);
    } else {
      TryOneAsync(i, src, c, io);
    }
  }

  /** try_one either hands over a message, or nothing is left to hand over except what
      AMF_NOREPLY postpones and what a fault hides. */
  lemma TryOneComplete(i: Ipc, k: nat, c: nat, io: Access)
    requires IpcShape(i) && AsyncInv(i) && PrivInv(i) && NameInv(i)
    requires k < |i.privs| && c < |i.procs| && Live(i.procs[c])
    requires i.privs[k].owner.Some? && !Finds(i, k, c, io)
    ensures var r := TryOne(i, i.privs[k].owner.value, c, io);
            && Fewer(i, r.0)
            && (Postpones(i, k, c, io) || Hides(i, k, c, io) || (NothingFor(i, c, k) && NothingFor(r.0, c, k)))
  {
    TryOneCases(i, k, c, io);
    assert TableOk(i, k) && NamesOk(i, c);
    if !Looks(i, k, c) && i.privs[k].asyn != [] {
      forall n | 0 <= n < |i.privs[k].asyn| && Undone(i.privs[k].asyn[n])
        ensures i.privs[k].asyn[n].dst != i.procs[c].endpoint
      {
        assert ElementOk(i, k, i.privs[k].asyn[n]);
      }
    }
  }

  /** Tables and masks unchanged except that tables may have been dropped. */
  ghost predicate Fewer(i: Ipc, j: Ipc) {
    && j.procs == i.procs && j.hist == i.hist && j.cq == i.cq && |j.privs| == |i.privs|
    && forall m :: 0 <= m < |i.privs| ==> j.privs[m] == i.privs[m] || j.privs[m] == i.privs[m].(asyn := [])
  }

  /** The first owned table from k on in which try_async finds something for c. */
  function FirstFinder(i: Ipc, c: nat, k: nat, io: Access): (f: nat)
    requires c < |i.procs| && k <= |i.privs|
    ensures k <= f <= |i.privs| && (f < |i.privs| ==> i.privs[f].owner.Some? && Finds(i, f, c, io))
    ensures forall m :: k <= m < f ==> !(i.privs[m].owner.Some? && Finds(i, m, c, io))
    decreases |i.privs| - k
  {
    if k == |i.privs| || (i.privs[k].owner.Some? && Finds(i, k, c, io)) then k else FirstFinder(i, c, k + 1, io)
  }

  /** try_async loses track of an element: either the first one that it finds cannot be
      marked, or it finds none, postpones none, and a fault hides one. */
  ghost predicate Loses(i: Ipc, c: nat, io: Access)
    requires c < |i.procs|
  {
    var f := FirstFinder(i, c, 0, io);
    if f < |i.privs| then Unmarked(i, f, c, io)
    else
      && (forall k :: 0 <= k < |i.privs| && i.privs[k].owner.Some? ==> !Postpones(i, k, c, io))
      && exists k :: 0 <= k < |i.privs| && i.privs[k].owner.Some? && Hides(i, k, c, io)
  }

  /** try_async, started in i, has come to table k and state j without finding anything. */
  ghost predicate Swept(i: Ipc, j: Ipc, c: nat, k: nat, postponed: bool, io: Access) {
    && IpcShape(i) && IpcShape(j) && AsyncInv(i) && PrivInv(i) && NameInv(i) && AsyncInv(j)
    && c < |i.procs| && k <= NR_SYS_PROCS && Live(i.procs[c]) && Fewer(i, j)
    && (forall m :: k <= m < |i.privs| ==> j.privs[m] == i.privs[m])
    && (forall m :: 0 <= m < |i.privs| && j.privs[m] != i.privs[m] ==> NothingFor(i, c, m))
    && (forall m :: 0 <= m < k && i.privs[m].owner.Some? ==> !Finds(i, m, c, io))
    && (postponed <==> exists m :: 0 <= m < k && i.privs[m].owner.Some? && Postpones(i, m, c, io))
  }

  lemma SweptSame(i: Ipc, j: Ipc, c: nat, k: nat, postponed: bool, io: Access)
    requires Swept(i, j, c, k, postponed, io) && k < |i.privs|
    ensures Scanned(j, k, c, io) == Scanned(i, k, c, io) && (Looks(j, k, c) <==> Looks(i, k, c))
    ensures Finds(j, k, c, io) <==> Finds(i, k, c, io)
    ensures Postpones(j, k, c, io) <==> Postpones(i, k, c, io)
  {
  }

  lemma SweptNext(i: Ipc, j: Ipc, c: nat, k: nat, postponed: bool, io: Access)
    requires Swept(i, j, c, k, postponed, io) && k < |i.privs|
    requires i.privs[k].owner.Some? && !Finds(i, k, c, io)
    ensures var (l, code, later) := TryOne(j, i.privs[k].owner.value, c, io);
            code != OK && Swept(i, l, c, k + 1, postponed || later, io)
  {
    hide TryOne, Postpones, Finds;
    SweptSame(i, j, c, k, postponed, io);
    PrivDropped(i, j);
    TryOneCases(j, k, c, io);
    var src := i.privs[k].owner.value;
    assert !Unmarked(j, k, c, io);
    TryOneAsync(j, src, c, io);
    TryOneShape(j, src, c, io);
    DroppedNothing(j, k, c, io);
    var (l, code, later) := TryOne(j, src, c, io);
    assert NothingFor(j, c, k) <==> NothingFor(i, c, k);
    if postponed || later {
      assert exists m :: 0 <= m < k + 1 && i.privs[m].owner.Some? && Postpones(i, m, c, io) by {
        if postponed {
          var m :| 0 <= m < k && i.privs[m].owner.Some? && Postpones(i, m, c, io);
        } else {
          assert Postpones(i, k, c, io);
        }
      }
    }
  }

  /** A table is dropped only with nothing left to send. */
  lemma DroppedNothing(i: Ipc, k: nat, c: nat, io: Access)
    requires IpcShape(i) && AsyncInv(i) && PrivInv(i) && k < |i.privs| && c < |i.procs| && i.privs[k].owner.Some?
    requires !Finds(i, k, c, io)
    ensures TryOne(i, i.privs[k].owner.value, c, io).0.privs[k] != i.privs[k] ==> NothingFor(i, c, k)
  {
    assert OwnerOk(i, k) && TableOk(i, k);
  }

  lemma SweptSkip(i: Ipc, j: Ipc, c: nat, k: nat, postponed: bool, io: Access)
    requires Swept(i, j, c, k, postponed, io) && k < |i.privs| && i.privs[k].owner.None?
    ensures Swept(i, j, c, k + 1, postponed, io)
  {
    hide Postpones, Finds;
    if postponed {
      var m :| 0 <= m < k && i.privs[m].owner.Some? && Postpones(i, m, c, io);
      assert exists m :: 0 <= m < k + 1 && i.privs[m].owner.Some? && Postpones(i, m, c, io);
    }
  }

  /** At the end: MF_ASYNMSG goes, unless something was postponed. */
  lemma SweptEnd(i: Ipc, j: Ipc, c: nat, postponed: bool, io: Access)
    requires Swept(i, j, c, NR_SYS_PROCS, postponed, io)
    ensures AsyncInv(TryAsyncFrom(j, c, NR_SYS_PROCS, postponed, io).0) <==> !Loses(i, c, io)
  {
    hide Postpones, Finds, Hides;
    assert FirstFinder(i, c, 0, io) == |i.privs|;
    if !postponed {
      if Loses(i, c, io) {
        var k :| 0 <= k < |i.privs| && i.privs[k].owner.Some? && Hides(i, k, c, io);
        HidesMeans(i, k, c, io);
        Forgotten(i, j, c, k, postponed, io);
      } else {
        forall m | 0 <= m < |i.privs| ensures NothingFor(j, c, m) {
          assert TableOk(i, m);
          if i.privs[m].owner.Some? {
            TryOneComplete(i, m, c, io);
          }
        }
        PrivDropped(i, j);
        Forget(j, c);
      }
    }
  }

  lemma HidesMeans(i: Ipc, k: nat, c: nat, io: Access)
    requires k < |i.privs| && c < |i.procs| && Hides(i, k, c, io)
    ensures !NothingFor(i, c, k) && Scanned(i, k, c, io).Faulted? && Looks(i, k, c)
  {
  }

  /** MF_ASYNMSG is gone although table k has an element for c. */
  lemma Forgotten(i: Ipc, j: Ipc, c: nat, k: nat, postponed: bool, io: Access)
    requires Swept(i, j, c, NR_SYS_PROCS, postponed, io) && k < |i.privs| && !NothingFor(i, c, k)
    ensures !AsyncInv(WithProc(j, c, j.procs[c].(misc := j.procs[c].misc - {AsynMsg})))
  {
    var l := WithProc(j, c, j.procs[c].(misc := j.procs[c].misc - {AsynMsg}));
    assert NamesOk(i, c);
    var n :| 0 <= n < |i.privs[k].asyn| && Undone(i.privs[k].asyn[n]) && i.privs[k].asyn[n].dst == i.procs[c].endpoint;
    assert l.privs[k] == i.privs[k] && NamesLive(l, i.privs[k].asyn[n].dst);
    assert !ElementOk(l, k, l.privs[k].asyn[n]);
    assert !TableOk(l, k);
  }

  /** The rest of try_async leaves the tables before k alone and only adds to the log. */
  lemma {:induction false} TryAsyncRest(i: Ipc, c: nat, k: nat, postponed: bool, io: Access)
    requires IpcShape(i) && PrivInv(i) && c < |i.procs| && k <= NR_SYS_PROCS
    ensures var j := TryAsyncFrom(i, c, k, postponed, io).0;
            && |j.privs| == |i.privs| && i.hist.asynSent <= j.hist.asynSent
            && forall m :: 0 <= m < k ==> j.privs[m] == i.privs[m]
    decreases NR_SYS_PROCS - k
  {
    if k == NR_SYS_PROCS {
    } else if i.privs[k].owner.None? {
      TryAsyncRest(i, c, k + 1, postponed, io);
    } else {
      var src := i.privs[k].owner.value;
      TryOneShape(i, src, c, io);
      TryOneCases(i, k, c, io);
      TryOneLog(i, src, c, io);
      hide TryOne;
      var (j, code, later) := TryOne(i, src, c, io);
      if code != OK {
        TryOnePriv(i, src, c, io);
        TryAsyncRest(j, c, k + 1, postponed || later, io);
      }
    }
  }

  lemma TryOneLog(i: Ipc, src: nat, c: nat, io: Access)
    requires IpcShape(i) && src < |i.procs| && c < |i.procs|
    ensures i.hist.asynSent <= TryOne(i, src, c, io).0.hist.asynSent
  {
  }

  lemma TryOnePriv(i: Ipc, src: nat, c: nat, io: Access)
    requires IpcShape(i) && PrivInv(i) && src < |i.procs| && c < |i.procs|
    ensures PrivInv(TryOne(i, src, c, io).0)
  {
    TryOneShape(i, src, c, io);
    TryOneOnlyTables(i, src, c, io);
    hide TryOne;
    OnlyTablesPriv(i, TryOne(i, src, c, io).0);
  }

  /** Nothing but tables, slots and the log differ. */
  ghost predicate OnlyTables(i: Ipc, j: Ipc) {
    && |j.procs| == |i.procs| && |j.privs| == |i.privs|
    && (forall p :: 0 <= p < |i.procs| ==>
          j.procs[p].privId == i.procs[p].privId && j.procs[p].rts == i.procs[p].rts
            && j.procs[p].getFrom == i.procs[p].getFrom)
    && (forall k :: 0 <= k < |i.privs| ==> j.privs[k] == i.privs[k].(asyn := j.privs[k].asyn))
  }

  lemma TryOneOnlyTables(i: Ipc, src: nat, c: nat, io: Access)
    requires IpcShape(i) && src < |i.procs| && c < |i.procs|
    ensures OnlyTables(i, TryOne(i, src, c, io).0)
  {
  }

  lemma OnlyTablesPriv(i: Ipc, j: Ipc)
    requires IpcShape(i) && IpcShape(j) && PrivInv(i) && OnlyTables(i, j)
    ensures PrivInv(j)
  {
    forall p | 0 <= p < |j.procs| ensures PrivOk(j, p) { assert PrivOk(i, p); }
    forall k | 0 <= k < |j.privs| ensures OwnerOk(j, k) { assert OwnerOk(i, k); }
  }

  /** try_async keeps the invariant exactly if it loses track of nothing. */
  lemma {:induction false} TryAsyncExact(i: Ipc, j: Ipc, c: nat, k: nat, postponed: bool, io: Access)
    requires Swept(i, j, c, k, postponed, io)
    ensures AsyncInv(TryAsyncFrom(j, c, k, postponed, io).0) <==> !Loses(i, c, io)
    decreases NR_SYS_PROCS - k
  {
    hide Swept, Loses, AsyncInv, TryOne;
    SweptShape(i, j, c, k, postponed, io);
    if k == NR_SYS_PROCS {
      SweptEnd(i, j, c, postponed, io);
    } else if i.privs[k].owner.None? {
      SweptSkip(i, j, c, k, postponed, io);
      TryAsyncExact(i, j, c, k + 1, postponed, io);
    } else if Finds(i, k, c, io) {
      FoundExact(i, j, c, k, postponed, io);
    } else {
      SweptNext(i, j, c, k, postponed, io);
      var (l, code, later) := TryOne(j, i.privs[k].owner.value, c, io);
      TryAsyncExact(i, l, c, k + 1, postponed || later, io);
    }
  }

  lemma SweptShape(i: Ipc, j: Ipc, c: nat, k: nat, postponed: bool, io: Access)
    requires Swept(i, j, c, k, postponed, io)
    ensures IpcShape(i) && IpcShape(j) && |i.procs| == |j.procs| && c < |i.procs| && k <= NR_SYS_PROCS
    ensures k < |i.privs| ==> j.privs[k] == i.privs[k]
  {
  }

  lemma FoundExact(i: Ipc, j: Ipc, c: nat, k: nat, postponed: bool, io: Access)
    requires Swept(i, j, c, k, postponed, io) && k < NR_SYS_PROCS && i.privs[k].owner.Some? && Finds(i, k, c, io)
    ensures AsyncInv(TryAsyncFrom(j, c, k, postponed, io).0) <==> !Loses(i, c, io)
  {
    SweptSame(i, j, c, k, postponed, io);
    PrivDropped(i, j);
    TryOneCases(j, k, c, io);
    var src := i.privs[k].owner.value;
    assert FirstFinder(i, c, 0, io) == k;
    assert Unmarked(j, k, c, io) <==> Unmarked(i, k, c, io);
    hide TryOne, Swept, Finds, AsyncInv;
    if Unmarked(j, k, c, io) {
      var (l, code, later) := TryOne(j, src, c, io);
      TryOneShape(j, src, c, io);
      TryOnePriv(j, src, c, io);
      TryAsyncRest(l, c, k + 1, postponed || later, io);
      UnmarkedBreaks(j, TryAsyncFrom(j, c, k, postponed, io).0, k, c, io, src);
    } else {
      SweptAsync(i, j, c, k, postponed, io);
      TryOneAsync(j, src, c, io);
    }
  }

  lemma SweptAsync(i: Ipc, j: Ipc, c: nat, k: nat, postponed: bool, io: Access)
    requires Swept(i, j, c, k, postponed, io)
    ensures AsyncInv(j)
  {
  }

  /** So try_async as a whole, which starts at the first table: it forgets MF_ASYNMSG only with
      nothing left, and sends nothing twice, exactly unless a fault makes it lose track. */
  lemma TryAsyncInv(i: Ipc, c: nat, io: Access)
    requires IpcShape(i) && AsyncInv(i) && PrivInv(i) && NameInv(i) && c < |i.procs| && Live(i.procs[c])
    ensures AsyncInv(TryAsync(i, c, io).0) <==> !Loses(i, c, io)
  {
    hide AsyncInv;
    assert Swept(i, i, c, 0, false, io);
    TryAsyncExact(i, i, c, 0, false, io);
  }

  lemma PrivDropped(i: Ipc, j: Ipc)
    requires IpcShape(i) && PrivInv(i) && NameInv(i) && IpcShape(j) && j.procs == i.procs
    requires forall m :: 0 <= m < |i.privs| ==> j.privs[m] == i.privs[m] || j.privs[m] == i.privs[m].(asyn := [])
    ensures PrivInv(j) && NameInv(j)
  {
    forall p | 0 <= p < |j.procs| ensures PrivOk(j, p) && NamesOk(j, p) {
      assert PrivOk(i, p) && NamesOk(i, p);
    }
    forall k | 0 <= k < |j.privs| ensures OwnerOk(j, k) { assert OwnerOk(i, k); }
  }

  lemma Forget(i: Ipc, c: nat)
    requires IpcShape(i) && AsyncInv(i) && NameInv(i) && c < |i.procs|
    requires forall m :: 0 <= m < |i.privs| ==> NothingFor(i, c, m)
    ensures AsyncInv(WithProc(i, c, i.procs[c].(misc := i.procs[c].misc - {AsynMsg})))
  {
    var j := WithProc(i, c, i.procs[c].(misc := i.procs[c].misc - {AsynMsg}));
    forall m | 0 <= m < |j.privs| ensures TableOk(j, m) {
      assert TableOk(i, m) && NothingFor(i, c, m);
      forall n | 0 <= n < |j.privs[m].asyn| && Undone(j.privs[m].asyn[n]) ensures ElementOk(j, m, j.privs[m].asyn[n]) {
        assert ElementOk(i, m, j.privs[m].asyn[n]);
      }
    }
  }
}
