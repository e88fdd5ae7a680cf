/** main() of kernel/main.c: the processes of the boot image become ready. */
module Boot {
  import opened KernelTypes
  import opened Scheduler
  import opened WaitGraph
  import opened Ipc
  import opened IpcInv
  import opened Letters
  import opened AsyncSends
  import opened KernelOps
  import opened Masks

  /** A row of the image table of kernel/table.c; queues start at TASK_Q, 0. */
  datatype BootEntry = BootEntry(
    flags: set<PrivFlag>, fullVm: bool, quantum: int, queue: nat, traps: set<int>, ipcTo: set<nat>)

  function Traps(n: nat): set<int> { if n == 0 then {} else Traps(n - 1) + {n - 1} }
  function Mask(n: nat): set<nat> { if n == 0 then {} else Mask(n - 1) + {n - 1} }

  /** s_nr_to_id, for a slot. */
  function SysId(p: nat): nat { p + 1 }

  const SERVICE: set<PrivFlag> := {SysProc, Preemptible}

  /** The table itself. */
  function Image(): seq<BootEntry> {
    var task := BootEntry({SysProc}, false, 8, 0, {RECEIVE}, {});
    [ BootEntry({SysProc, Preemptible, Billable}, false, 8, IDLE_Q, {}, {}),
      task, task, task.(traps := {}),
      BootEntry(SERVICE, false, 32, 4, Traps(32), Mask(BITCHUNK_BITS)),
      BootEntry(SERVICE, false, 32, 5, Traps(32), Mask(BITCHUNK_BITS)),
      BootEntry(SERVICE, true, 4, 4, Traps(32), Mask(BITCHUNK_BITS)),
      BootEntry(SERVICE, true, 4, 3, Traps(32), Mask(BITCHUNK_BITS)),
      BootEntry(SERVICE, false, 4, 2, Traps(32), Mask(BITCHUNK_BITS)),
      BootEntry(SERVICE, true, 4, 1, Traps(32), Mask(BITCHUNK_BITS)),
      BootEntry(SERVICE, true, 4, 4, Traps(32), Mask(BITCHUNK_BITS)),
      BootEntry(SERVICE, true, 32, 5, Traps(32), Mask(BITCHUNK_BITS)),
      BootEntry({SysProc}, false, 32, 2, Traps(32), Mask(BITCHUNK_BITS)),
      BootEntry({Billable, Preemptible}, true, 8, 7, {SENDREC},
                {SysId(PM), SysId(VFS), SysId(VFS + 1), SysId(VM)}) ]
  }

  /** What the boot sequence relies on: only INIT is a user process, only IDLE is in
      IDLE_Q, IDLE can run at once, and quanta are positive. */
  predicate ImageOk(image: seq<BootEntry>) {
    && |image| == NR_BOOT_PROCS
    && (forall k :: 0 <= k < NR_BOOT_PROCS ==> (SysProc in image[k].flags <==> k != INIT))
    && (forall k :: 0 <= k < NR_BOOT_PROCS ==>
          if k == IDLE then image[k].queue == IDLE_Q else image[k].queue < IDLE_Q)
    && !image[IDLE].fullVm
    && (forall k :: 0 <= k < NR_BOOT_PROCS ==> image[k].quantum > 0)
  }

  lemma ImageIsOk()
    ensures ImageOk(Image())
  {
    hide Traps, Mask;
  }

  // -------------------------------------------------------------------- main()

  function FreeProc(p: nat): Proc {
    Proc(Ep(0, p), {SlotFree}, {}, ANY, ANY, Data(0), Message(ANY, Data(0)), USER_PRIV_ID, {}, OK, 0, ANY)
  }

  /** The cleared tables, and proc_ptr pointing somewhere. */
  function Blank(n: nat): State
    requires n >= NR_BOOT_PROCS
  {
    State(
      Ipc(seq(n, p requires 0 <= p < n => FreeProc(p)),
          seq(NR_SYS_PROCS, k => Priv(None, {}, {}, {}, {}, {}, {}, [], 0)),
          seq(n, p => []), History([], [], [], [], 0, [])),
      Sched(seq(n, p => Entry(0, 0, 0, 0, false, false)), seq(NR_SCHED_QUEUES, q => []), IDLE, None, IDLE))
  }

  /** set_sendto_bit for every bit of a row's mask from id on. */
  ghost function BootMask(i: Ipc, p: nat, bits: set<nat>, id: nat): (r: Ipc)
    requires IpcShape(i) && p < |i.procs| && id <= BITCHUNK_BITS
    ensures IpcShape(r) && MasksOnly(i, r)
    decreases BITCHUNK_BITS - id
  {
    if id == BITCHUNK_BITS then i
    else BootMask(if id in bits then SetSendTo(i, p, id) else i, p, bits, id + 1)
  }

  function BootId(p: nat, e: BootEntry): nat {
    if SysProc in e.flags then SysId(p) else USER_PRIV_ID
  }

  /** get_priv and the other privilege settings of one process. */
  function BootPriv(i: Ipc, p: nat, e: BootEntry): Ipc
    requires p < INIT + 1 <= |i.procs| && |i.privs| == NR_SYS_PROCS
  {
    var k := BootId(p, e);
    WithPriv(WithProc(i, p, i.procs[p].(privId := k)), k,
             i.privs[k].(owner := Some(if SysProc in e.flags then p else INIT), flags := e.flags, trapMask := e.traps))
  }

  function BootEnt(e: BootEntry): Entry {
    Entry(e.queue, e.queue, e.quantum, e.quantum, Preemptible in e.flags, Billable in e.flags)
  }

  function BootFlags(p: nat, e: BootEntry): set<RtsFlag> {
    (if e.fullVm then {VmInhibit} else {}) + (if p == HARDWARE then {ProcStop} else {})
  }

  /** One turn of main()'s loop. */
  ghost function BootOne(s: State, p: nat, e: BootEntry): (r: State)
    requires StateShape(s) && p < NR_BOOT_PROCS && e.queue < NR_SCHED_QUEUES
    ensures StateShape(r) && |r.ipc.procs| == |s.ipc.procs|
  {
    var i := BootMask(BootPriv(s.ipc, p, e), p, e.ipcTo, 0);
    var s1 := State(i, s.sched.(ent := s.sched.ent[p := BootEnt(e)]));
    var s2 := if BootFlags(p, e) == {} then s1 else RtsSet(s1, p, BootFlags(p, e));
    RtsUnset(s2, p, {SlotFree})
  }

  ghost function BootFrom(s: State, image: seq<BootEntry>, p: nat): (r: State)
    requires StateShape(s) && ImageOk(image) && p <= NR_BOOT_PROCS
    ensures StateShape(r) && |r.ipc.procs| == |s.ipc.procs|
    decreases NR_BOOT_PROCS - p
  {
    if p == NR_BOOT_PROCS then s else BootFrom(BootOne(s, p, image[p]), image, p + 1)
  }

  ghost function BootState(n: nat, image: seq<BootEntry>): (r: State)
    requires n >= NR_BOOT_PROCS && ImageOk(image)
    ensures StateShape(r) && |r.ipc.procs| == n
  {
    BootFrom(Blank(n), image, 0)
  }

  // ------------------------------------------------------- what holds on the way

  /** The state of slot x after the first p processes were set up. */
  ghost predicate BootedProc(x: Proc, n: nat, p: nat) {
    && x.endpoint == Ep(0, n) && x.misc == {} && x.privId < NR_SYS_PROCS
    && (if n < p then x.rts <= {VmInhibit, ProcStop} && x.privId == (if n == INIT then USER_PRIV_ID else SysId(n))
        else x.rts == {SlotFree})
  }

  ghost predicate BootedPriv(v: Priv, k: nat, p: nat) {
    && v.notifyPending == {} && v.asyn == [] && k !in v.ipcTo
    && (if k == USER_PRIV_ID then v.owner == (if INIT < p then Some(INIT) else None)
        else v.owner == (if k - 1 < p && k - 1 < INIT then Some(k - 1) else None))
    && (v.owner.Some? ==> (SysProc in v.flags <==> k != USER_PRIV_ID))
  }

  /** Masks name owned structures only. */
  ghost predicate OwnedMasks(i: Ipc) {
    forall k, m: nat :: 0 <= k < |i.privs| && m in i.privs[k].ipcTo ==> Owned(i, m)
  }

  ghost predicate Owned(i: Ipc, k: nat) { k < |i.privs| && i.privs[k].owner.Some? }

  ghost predicate BootedIpc(i: Ipc, p: nat) {
    && NR_BOOT_PROCS <= |i.procs| == |i.cq| && |i.privs| == NR_SYS_PROCS
    && i.hist == History([], [], [], [], 0, [])
    && (forall n :: 0 <= n < |i.procs| ==> BootedProc(i.procs[n], n, p) && i.cq[n] == [])
    && (forall k :: 0 <= k < |i.privs| ==> BootedPriv(i.privs[k], k, p))
    && MayAnswer(i) && OwnedMasks(i) && (p > 0 ==> i.procs[IDLE].rts == {})
  }

  ghost predicate BootedSched(s: Sched, run: set<nat>, p: nat) {
    && ReadyInv(s, run) && s.procPtr == IDLE && (s.nextPtr.Some? ==> s.nextPtr.value in run)
    && (forall n :: 0 <= n < |s.ent| && (n != IDLE || p == 0) ==>
          s.ent[n].maxPriority <= s.ent[n].priority <= IDLE_Q - 1)
    && (p > 0 ==> IDLE in run && s.ent[IDLE].priority == IDLE_Q == s.ent[IDLE].maxPriority)
  }

  ghost predicate Booted(s: State, p: nat) {
    && BootedIpc(s.ipc, p) && Shape(s.sched) && |s.sched.ent| == |s.ipc.procs|
    && BootedSched(s.sched, Ready(s.ipc), p)
  }

  lemma BlankBooted(n: nat)
    requires n >= NR_BOOT_PROCS
    ensures StateShape(Blank(n)) && Booted(Blank(n), 0)
  {
    var i := Blank(n).ipc;
    forall p | 0 <= p < n ensures p !in Ready(i) {
      assert SlotFree in i.procs[p].rts;
    }
    assert Ready(i) == {};
  }

  lemma BootPrivBooted(i: Ipc, p: nat, e: BootEntry)
    requires BootedIpc(i, p) && p < NR_BOOT_PROCS && (SysProc in e.flags <==> p != INIT)
    ensures var j := BootPriv(i, p, e);
            && IpcShape(j) && MayAnswer(j) && Ready(j) == Ready(i)
            && (forall n :: 0 <= n < |j.procs| ==>
                  if n == p then j.procs[n] == i.procs[n].(privId := BootId(p, e)) else j.procs[n] == i.procs[n])
            && (forall k :: 0 <= k < |j.privs| ==> BootedPriv(j.privs[k], k, p + 1))
            && OwnersHere(j) && OwnedMasks(j) && j.cq == i.cq && j.hist == i.hist
            && j.privs[BootId(p, e)].owner.Some?
  {
    var j := BootPriv(i, p, e);
    SameReady(i, j);
    forall k | 0 <= k < |j.privs| ensures BootedPriv(j.privs[k], k, p + 1) { assert BootedPriv(i.privs[k], k, p); }
    forall n | 0 <= n < |j.procs| ensures j.procs[n].privId < NR_SYS_PROCS { assert BootedProc(i.procs[n], n, p); }
    forall k, m | 0 <= k < |j.privs| && 0 <= m < |j.privs|
      ensures m in j.privs[k].ipcTo && j.privs[m].owner.Some? && !OfKernel(j.privs[m].owner) ==> k in j.privs[m].ipcTo
    {
      assert m in i.privs[k].ipcTo ==> Owned(i, m);
      assert BootedPriv(i.privs[m], m, p);
    }
    forall k, m: nat | 0 <= k < |j.privs| && m in j.privs[k].ipcTo ensures Owned(j, m) {
      assert m in i.privs[k].ipcTo && Owned(i, m);
    }
    forall k | 0 <= k < |j.privs| && j.privs[k].owner.Some? ensures j.procs[j.privs[k].owner.value].privId == k {
      assert BootedPriv(i.privs[k], k, p);
      var o := j.privs[k].owner.value;
      assert BootedProc(i.procs[o], o, p);
    }
  }

  /** The owner of a structure uses it. */
  ghost predicate OwnersHere(i: Ipc) {
    forall k :: 0 <= k < |i.privs| && i.privs[k].owner.Some? ==>
      i.privs[k].owner.value < |i.procs| && i.procs[i.privs[k].owner.value].privId == k
  }

  lemma SetSendToOwned(i: Ipc, p: nat, id: nat)
    requires IpcShape(i) && p < |i.procs| && id < |i.privs| && OwnersHere(i) && OwnedMasks(i)
    requires i.privs[i.procs[p].privId].owner.Some?
    ensures OwnersHere(SetSendTo(i, p, id)) && OwnedMasks(SetSendTo(i, p, id))
  {
    var j := SetSendTo(i, p, id);
    forall k, m: nat | 0 <= k < |j.privs| && m in j.privs[k].ipcTo ensures Owned(j, m) {
      assert (m in i.privs[k].ipcTo && Owned(i, m)) || m == id || m == i.procs[p].privId;
    }
  }

  lemma {:induction false} BootMaskKeeps(i: Ipc, p: nat, bits: set<nat>, id: nat)
    requires IpcShape(i) && p < |i.procs| && id <= BITCHUNK_BITS
    requires OwnersHere(i) && MayAnswer(i) && OwnedMasks(i) && i.privs[i.procs[p].privId].owner.Some?
    requires forall k :: 0 <= k < |i.privs| ==> k !in i.privs[k].ipcTo
    ensures var j := BootMask(i, p, bits, id);
            MayAnswer(j) && OwnedMasks(j) && forall k :: 0 <= k < |j.privs| ==> k !in j.privs[k].ipcTo
    decreases BITCHUNK_BITS - id
  {
    if id < BITCHUNK_BITS {
      SetSendToMasks(i, p, id);
      SetSendToOwned(i, p, id);
      BootMaskKeeps(if id in bits then SetSendTo(i, p, id) else i, p, bits, id + 1);
    }
  }

  lemma BootSchedBooted(s: Sched, run: set<nat>, p: nat, e: BootEntry)
    requires BootedSched(s, run, p) && p < |s.ent| && p !in run && e.queue < NR_SCHED_QUEUES
    requires if p == IDLE then e.queue == IDLE_Q else e.queue < IDLE_Q
    ensures var s1 := s.(ent := s.ent[p := BootEnt(e)]);
            && Shape(s1) && BootedSched(Enqueue(s1, p), run + {p}, p + 1)
            && (p != IDLE ==> BootedSched(s1, run, p + 1))
  {
    OffListEntry(s, run, p, BootEnt(e));
    var s1 := s.(ent := s.ent[p := BootEnt(e)]);
    assert Current(s1) in run + {p};
    EnqueueInv(s1, run, p);
  }

  /** The message side of one turn. */
  lemma BootOneIpc(i: Ipc, p: nat, e: BootEntry)
    requires BootedIpc(i, p) && p < NR_BOOT_PROCS && (SysProc in e.flags <==> p != INIT) && (p == IDLE ==> !e.fullVm)
    ensures var m := BootPriv(i, p, e);
            IpcShape(m) && BootedIpc(BootUp(BootMask(m, p, e.ipcTo, 0), p, e), p + 1)
  {
    hide BootPriv, BootMask, MayAnswer, OwnedMasks, OwnersHere, BootedProc, BootedPriv, BootUp;
    BootPrivBooted(i, p, e);
    var i0 := BootPriv(i, p, e);
    NoSelfYet(i0, p + 1);
    BootMaskKeeps(i0, p, e.ipcTo, 0);
    var m := BootMask(i0, p, e.ipcTo, 0);
    UpProcs(i, m, p, e);
    UpMasks(m, BootUp(m, p, e));
    UpPrivs(i0, m, p + 1);
  }

  lemma UpProcs(i: Ipc, m: Ipc, p: nat, e: BootEntry)
    requires BootedIpc(i, p) && p < NR_BOOT_PROCS && (SysProc in e.flags <==> p != INIT) && (p == IDLE ==> !e.fullVm)
    requires |m.procs| == |i.procs|
    requires forall n :: 0 <= n < |m.procs| ==>
               if n == p then m.procs[n] == i.procs[n].(privId := BootId(p, e)) else m.procs[n] == i.procs[n]
    ensures var j := BootUp(m, p, e);
            && j.privs == m.privs && j.cq == m.cq && j.hist == m.hist && |j.procs| == |m.procs|
            && (forall n :: 0 <= n < |j.procs| ==> BootedProc(j.procs[n], n, p + 1)) && j.procs[IDLE].rts == {}
  {
    var j := BootUp(m, p, e);
    forall n | 0 <= n < |j.procs| ensures BootedProc(j.procs[n], n, p + 1) {
      assert BootedProc(i.procs[n], n, p);
    }
  }

  lemma UpPrivs(i: Ipc, j: Ipc, p: nat)
    requires forall k :: 0 <= k < |i.privs| ==> BootedPriv(i.privs[k], k, p)
    requires MasksOnly(i, j) && forall k :: 0 <= k < |j.privs| ==> k !in j.privs[k].ipcTo
    ensures forall k :: 0 <= k < |j.privs| ==> BootedPriv(j.privs[k], k, p)
  {
    forall k | 0 <= k < |j.privs| ensures BootedPriv(j.privs[k], k, p) { assert BootedPriv(i.privs[k], k, p); }
  }

  lemma NoSelfYet(i: Ipc, p: nat)
    requires forall k :: 0 <= k < |i.privs| ==> BootedPriv(i.privs[k], k, p)
    ensures forall k :: 0 <= k < |i.privs| ==> k !in i.privs[k].ipcTo
  {
    forall k | 0 <= k < |i.privs| ensures k !in i.privs[k].ipcTo { assert BootedPriv(i.privs[k], k, p); }
  }

  lemma UpMasks(i: Ipc, j: Ipc)
    requires j.privs == i.privs
    ensures (MayAnswer(i) <==> MayAnswer(j)) && (OwnedMasks(i) <==> OwnedMasks(j))
  {
    forall k: nat ensures Owned(i, k) <==> Owned(j, k) {}
  }

  function BootUp(i: Ipc, p: nat, e: BootEntry): Ipc
    requires p < |i.procs|
  {
    WithProc(i, p, i.procs[p].(rts := BootFlags(p, e)))
  }

  lemma BootOneForm(s: State, p: nat, e: BootEntry)
    requires StateShape(s) && p < NR_BOOT_PROCS && e.queue < NR_SCHED_QUEUES && s.ipc.procs[p].rts == {SlotFree}
    ensures var r := BootOne(s, p, e);
            var s1 := s.sched.(ent := s.sched.ent[p := BootEnt(e)]);
            && r.ipc == BootUp(BootMask(BootPriv(s.ipc, p, e), p, e.ipcTo, 0), p, e)
            && Shape(s1) && r.sched == (if BootFlags(p, e) == {} then Enqueue(s1, p) else s1)
            && Ready(r.ipc) == (if BootFlags(p, e) == {} then Ready(s.ipc) + {p} else Ready(s.ipc))
  {
    hide Enqueue, Dequeue, BootMask;
    var i := BootMask(BootPriv(s.ipc, p, e), p, e.ipcTo, 0);
    FlagsLeft(BootFlags(p, e), i.procs[p].rts);
    assert {SlotFree} + BootFlags(p, e) != {} by { assert SlotFree in {SlotFree} + BootFlags(p, e); }
    assert i.procs == s.ipc.procs[p := s.ipc.procs[p].(privId := BootId(p, e))];
    assert SlotFree in s.ipc.procs[p].rts;
  }

  lemma BootOneBooted(s: State, p: nat, e: BootEntry)
    requires StateShape(s) && Booted(s, p) && p < NR_BOOT_PROCS && (SysProc in e.flags <==> p != INIT)
    requires if p == IDLE then e.queue == IDLE_Q && !e.fullVm else e.queue < IDLE_Q
    ensures Booted(BootOne(s, p, e), p + 1)
  {
    assert BootedProc(s.ipc.procs[p], p, p);
    assert SlotFree in s.ipc.procs[p].rts;
    BootOneForm(s, p, e);
    BootOneIpc(s.ipc, p, e);
    hide BootOne, BootMask, BootPriv, BootUp, Enqueue, BootedIpc, BootedSched, Shape;
    BootSchedBooted(s.sched, Ready(s.ipc), p, e);
  }

  lemma FlagsLeft(f: set<RtsFlag>, rts: set<RtsFlag>)
    requires rts == {SlotFree} && SlotFree !in f
    ensures rts + f - {SlotFree} == f
  {
  }

  lemma {:induction false} BootFromBooted(s: State, image: seq<BootEntry>, p: nat)
    requires StateShape(s) && Booted(s, p) && ImageOk(image) && p <= NR_BOOT_PROCS
    ensures Booted(BootFrom(s, image, p), NR_BOOT_PROCS)
    decreases NR_BOOT_PROCS - p
  {
    if p < NR_BOOT_PROCS {
      hide Booted, BootOne;
      BootOneBooted(s, p, image[p]);
      BootFromBooted(BootOne(s, p, image[p]), image, p + 1);
    }
  }

  lemma BootedMessage(i: Ipc)
    requires IpcShape(i) && BootedIpc(i, NR_BOOT_PROCS)
    ensures MessageInv(i)
  {
    forall p | 0 <= p < |i.procs| ensures NamesOk(i, p) && WaitOk(i, p) && PrivOk(i, p) {
      assert BootedProc(i.procs[p], p, NR_BOOT_PROCS);
      var k := i.procs[p].privId;
      assert BootedPriv(i.privs[k], k, NR_BOOT_PROCS);
    }
    forall k | 0 <= k < |i.privs| ensures OwnerOk(i, k) && TableOk(i, k) {
      assert BootedPriv(i.privs[k], k, NR_BOOT_PROCS);
      if i.privs[k].owner.Some? {
        var o := i.privs[k].owner.value;
        assert BootedProc(i.procs[o], o, NR_BOOT_PROCS);
      }
    }
    assert BootedPriv(i.privs[USER_PRIV_ID], USER_PRIV_ID, NR_BOOT_PROCS);
    forall p | 0 <= p < |i.procs| ensures WaitsFor(i)[p].None? && Sending !in i.procs[p].rts {
      assert BootedProc(i.procs[p], p, NR_BOOT_PROCS);
    }
    RankedIsAcyclic(WaitsFor(i), seq(|i.procs|, p => 0));
    forall p | 0 <= p <= PM ensures Live(i.procs[p]) { assert BootedProc(i.procs[p], p, NR_BOOT_PROCS); }
    assert BootedProc(i.procs[IDLE], IDLE, NR_BOOT_PROCS);
  }

  /** The kernel boots into a state that satisfies its invariant, with masks that let
      every process but the kernel tasks answer. */
  lemma BootInv(n: nat, image: seq<BootEntry>)
    requires n >= NR_BOOT_PROCS && ImageOk(image)
    ensures KernelInv(BootState(n, image)) && MayAnswer(BootState(n, image).ipc)
  {
    hide BootFrom, Blank, ReadyInv, BootedProc, BootedPriv;
    BlankBooted(n);
    BootFromBooted(Blank(n), image, 0);
    assert Booted(BootState(n, image), NR_BOOT_PROCS);
    hide MessageInv;
    BootedMessage(BootState(n, image).ipc);
  }
}
