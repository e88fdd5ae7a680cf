/** The send masks of kernel/system.c: who may send to whom. */
module Masks {
  import opened KernelTypes
  import opened Ipc
  import opened IpcInv
  import opened Letters
  import opened AsyncSends
  import opened KernelOps

  function Permit(i: Ipc, k: nat, id: nat): Ipc
    requires k < |i.privs|
  {
    WithPriv(i, k, i.privs[k].(ipcTo := i.privs[k].ipcTo + {id}))
  }

  function Forbid(i: Ipc, k: nat, id: nat): Ipc
    requires k < |i.privs|
  {
    WithPriv(i, k, i.privs[k].(ipcTo := i.privs[k].ipcTo - {id}))
  }

  predicate OfKernel(o: Option<nat>) { o.Some? && o.value < NR_TASKS }

  /** set_sendto_bit(): never to nobody or to oneself, and a receiver that is not a
      kernel task may answer. */
  function SetSendTo(i: Ipc, p: nat, id: nat): (r: Ipc)
    requires IpcShape(i) && p < |i.procs| && id < |i.privs|
  {
    var k := i.procs[p].privId;
    if i.privs[id].owner.None? || k == id then i
    else
      var j := Permit(i, k, id);
      if OfKernel(i.privs[id].owner) then j
      else Permit(j, i.procs[i.privs[id].owner.value].privId, k)
  }

  /** unset_sendto_bit(). */
  function UnsetSendTo(i: Ipc, p: nat, id: nat): (r: Ipc)
    requires IpcShape(i) && p < |i.procs| && id < |i.privs|
  {
    Forbid(Forbid(i, i.procs[p].privId, id), id, i.procs[p].privId)
  }

  /** Whoever may be sent to may answer, unless it is a kernel task. */
  ghost predicate MayAnswer(i: Ipc) {
    forall k, m :: 0 <= k < |i.privs| && 0 <= m < |i.privs| ==>
      (m in i.privs[k].ipcTo && i.privs[m].owner.Some? && !OfKernel(i.privs[m].owner) ==> k in i.privs[m].ipcTo)
  }

  /** All but the masks is the same. */
  ghost predicate MasksOnly(i: Ipc, j: Ipc) {
    && j.procs == i.procs && j.cq == i.cq && j.hist == i.hist && |j.privs| == |i.privs|
    && forall k :: 0 <= k < |i.privs| ==> j.privs[k] == i.privs[k].(ipcTo := j.privs[k].ipcTo)
  }

  lemma MasksKeep(i: Ipc, j: Ipc)
    requires MessageInv(i) && MasksOnly(i, j) && forall k :: 0 <= k < |j.privs| ==> k !in j.privs[k].ipcTo
    ensures IpcShape(j) && CoreInv(j) && GraphInv(j) && PrivInv(j) && LetterInv(j) && VitalInv(j)
  {
    assert IpcShape(j);
    assert Quiet(i, j);
    QuietCore(i, j);
    QuietGraph(i, j);
    SameLettersInv(i, j);
    forall p | 0 <= p < |j.procs| ensures PrivOk(j, p) { assert PrivOk(i, p); }
    forall k | 0 <= k < |j.privs| ensures OwnerOk(j, k) { assert OwnerOk(i, k); }
  }

  /** Table k has something pending for a live process of structure id. */
  ghost predicate Pends(i: Ipc, k: nat, id: nat)
    requires k < |i.privs|
  {
    exists n :: 0 <= n < |i.privs[k].asyn| && Undone(i.privs[k].asyn[n]) && NamesLive(i, i.privs[k].asyn[n].dst)
                && i.procs[i.privs[k].asyn[n].dst.slot].privId == id
  }

  /** New masks keep the tables in order iff nothing pending loses its permission. */
  lemma MasksTables(i: Ipc, j: Ipc)
    requires AsyncInv(i) && MasksOnly(i, j)
    ensures AsyncInv(j) <==> forall k, id :: 0 <= k < |i.privs| && id in i.privs[k].ipcTo && id !in j.privs[k].ipcTo ==>
                               !Pends(i, k, id)
  {
    forall k, a | 0 <= k < |j.privs| && 0 <= a < |j.hist.asynSent| ensures Marked(j.privs[k], j.hist.asynSent[a]) {
      assert Marked(i.privs[k], i.hist.asynSent[a]);
    }
    forall k | 0 <= k < |j.privs|
      ensures TableOk(j, k) <==> forall id :: id in i.privs[k].ipcTo && id !in j.privs[k].ipcTo ==> !Pends(i, k, id)
    {
      assert TableOk(i, k);
      forall n | 0 <= n < |j.privs[k].asyn| && Undone(j.privs[k].asyn[n])
        ensures ElementOk(j, k, j.privs[k].asyn[n]) <==>
                (NamesLive(i, i.privs[k].asyn[n].dst) ==>
                   i.procs[i.privs[k].asyn[n].dst.slot].privId in j.privs[k].ipcTo)
      {
        assert ElementOk(i, k, i.privs[k].asyn[n]);
      }
    }
  }

  lemma SetSendToMasks(i: Ipc, p: nat, id: nat)
    requires IpcShape(i) && p < |i.procs| && id < |i.privs|
    requires forall k :: 0 <= k < |i.privs| ==> k !in i.privs[k].ipcTo
    requires i.privs[id].owner.Some? ==> i.procs[i.privs[id].owner.value].privId == id
    ensures var j := SetSendTo(i, p, id);
            && MasksOnly(i, j)
            && (forall k :: 0 <= k < |j.privs| ==> k !in j.privs[k].ipcTo && i.privs[k].ipcTo <= j.privs[k].ipcTo)
            && (MayAnswer(i) ==> MayAnswer(j))
  {
  }

  lemma SetSendToInv(i: Ipc, p: nat, id: nat)
    requires MessageInv(i) && p < |i.procs| && id < |i.privs|
    ensures MessageInv(SetSendTo(i, p, id))
    ensures MayAnswer(i) ==> MayAnswer(SetSendTo(i, p, id))
  {
    var j := SetSendTo(i, p, id);
    assert OwnerOk(i, id);
    SetSendToMasks(i, p, id);
    hide CoreInv, GraphInv, PrivInv, AsyncInv, LetterInv, SetSendTo, MayAnswer;
    MasksKeep(i, j);
    MasksTables(i, j);
  }

  lemma UnsetSendToMasks(i: Ipc, p: nat, id: nat)
    requires IpcShape(i) && PrivInv(i) && p < |i.procs| && id < |i.privs|
    ensures var j, k := UnsetSendTo(i, p, id), i.procs[p].privId;
            && MasksOnly(i, j)
            && (forall m :: 0 <= m < |j.privs| ==> m !in j.privs[m].ipcTo)
            && (forall m, n :: 0 <= m < |j.privs| ==>
                  (n in j.privs[m].ipcTo <==> n in i.privs[m].ipcTo && !(m == k && n == id) && !(m == id && n == k)))
            && (MayAnswer(i) ==> MayAnswer(j))
  {
  }

  /** Revoking a permission keeps the invariant exactly when nothing that depends on
      it is pending in either direction. */
  lemma UnsetSendToExact(i: Ipc, p: nat, id: nat)
    requires MessageInv(i) && p < |i.procs| && id < |i.privs|
    ensures var k := i.procs[p].privId;
            MessageInv(UnsetSendTo(i, p, id)) <==>
              !(id in i.privs[k].ipcTo && Pends(i, k, id)) && !(k in i.privs[id].ipcTo && Pends(i, id, k))
    ensures MayAnswer(i) ==> MayAnswer(UnsetSendTo(i, p, id))
  {
    var j := UnsetSendTo(i, p, id);
    UnsetSendToMasks(i, p, id);
    hide CoreInv, GraphInv, PrivInv, AsyncInv, LetterInv, UnsetSendTo, MayAnswer;
    MasksKeep(i, j);
    MasksTables(i, j);
  }
}
