/** What becomes of messages, notifications and signals in a run: each is found in a
    delivery slot before it is gone, and what is found there was meant for it. */
module Fates {
  import opened KernelTypes
  import opened Scheduler
  import opened Ipc
  import opened IpcInv
  import opened AsyncSends
  import opened KernelOps
  import opened Syscalls
  import opened Lifecycle
  import opened Forking
  import opened Masks
  import opened KernelSteps
  import opened Progress
  import opened Handover
  import opened Boot
  import opened Runs

  // --------------------------------------------------------------- one step of a run

  lemma RunSize(tr: seq<State>, steps: seq<Step>)
    requires IsRun(tr, steps)
    ensures |tr| == |steps| + 1
  {
  }

  lemma StepAt(tr: seq<State>, steps: seq<Step>, k: nat)
    requires IsRun(tr, steps) && k < |steps|
    ensures RunInv(tr[k]) && Enabled(tr[k], steps[k]) && tr[k + 1] == After(tr[k], steps[k]) && RunInv(tr[k + 1])
  {
    hide KernelInv, MayAnswer, After, Enabled, BootState;
    RunKeeps(tr, steps, k);
    RunKeeps(tr, steps, k + 1);
  }

  /** Whatever a step delivers is in the slot of its receiver when the step is over: a letter
      as it was accepted, an element of a table as SENDA was called with it.  And an ordinary
      message that was not in a slot before the step was delivered there by it. */
  lemma SlotsAreRight(tr: seq<State>, steps: seq<Step>, k: nat)
    requires IsRun(tr, steps) && k < |steps|
    ensures var i, j := tr[k].ipc, tr[k + 1].ipc;
            LettersHanded(i, j) && PostsHanded(i, j) && Explained(i, j, |i.procs|)
  {
    hide KernelInv, MayAnswer, After, Enabled, BootState, IsRun, LettersHanded, PostsHanded, Explained, BitsTaken,
      SignalsTaken, SlotsStay, Dispatches, BitsOf;
    RunSize(tr, steps);
    StepAt(tr, steps, k);
    if Ordinary(steps[k]) { StepHands(tr[k], steps[k]); } else { OtherHands(tr[k], steps[k]); }
  }

  // ------------------------------------------------------------------ from then on

  /** The step hands the message of p over to it, or p leaves. */
  ghost predicate Takes(step: Step, j: Ipc, p: nat)
    requires p < |j.procs|
  {
    step == Leave(p) || (step.Dispatch? && p !in step.faults && DeliverMsg !in j.procs[p].misc)
  }

  ghost predicate SameSlot(x: Proc, y: Proc) {
    Full(y) && y.deliverMsg == x.deliverMsg && y.endpoint == x.endpoint
  }

  lemma StepSlot(s: State, step: Step, p: nat)
    requires KernelInv(s) && PostInv(s.ipc) && Enabled(s, step) && p < |s.ipc.procs| && Full(s.ipc.procs[p])
    ensures var j := After(s, step).ipc;
            p < |j.procs| && (Takes(step, j, p) || SameSlot(s.ipc.procs[p], j.procs[p]))
  {
    hide KernelInv, After, Enabled, PostInv, LettersHanded, PostsHanded, Explained, BitsTaken, SignalsTaken, BitsOf;
    if Ordinary(step) {
      StepHands(s, step);
    } else if step.Dispatch? {
      OtherHands(s, step);
      assert HandedOver(s.ipc.procs[p], After(s, step).ipc.procs[p], p in step.faults);
    } else if step.Spawn? {
      SpawnSlot(s, step, p);
    } else {
      DeathSlot(s, step, p);
    }
  }

  lemma SpawnSlot(s: State, step: Step, p: nat)
    requires KernelInv(s) && Enabled(s, step) && step.Spawn? && p < |s.ipc.procs| && Full(s.ipc.procs[p])
    ensures p < |After(s, step).ipc.procs| && After(s, step).ipc.procs[p] == s.ipc.procs[p]
  {
    hide MessageInv, SchedInv;
  }

  lemma DeathSlot(s: State, step: Step, p: nat)
    requires KernelInv(s) && Enabled(s, step) && (step.Die? || step.Leave?) && p < |s.ipc.procs| && Full(s.ipc.procs[p])
    ensures var j := After(s, step).ipc;
            p < |j.procs| && (step == Leave(p) || SameSlot(s.ipc.procs[p], j.procs[p]))
  {
    hide MessageInv, SchedInv, ClearEndpoint, Cleared;
    ClearEndpointGone(s, step.rc);
    ClearedFlags(s.ipc.procs[p], s.ipc.procs[step.rc].endpoint);
  }

  /** A step between a and b took what was in the slot of p. */
  ghost predicate TakenBetween(tr: seq<State>, steps: seq<Step>, a: nat, b: nat, p: nat) {
    exists m: nat :: a <= m < b && m < |steps| && m + 1 < |tr| && p < |tr[m + 1].ipc.procs|
                     && Takes(steps[m], tr[m + 1].ipc, p)
  }

  /** A message stays in its slot, unchanged, until a dispatch hands it over or its receiver
      exits. */
  lemma {:induction false} SlotLasts(tr: seq<State>, steps: seq<Step>, a: nat, b: nat, p: nat)
    requires IsRun(tr, steps) && a <= b < |tr| && p < |tr[a].ipc.procs| && Full(tr[a].ipc.procs[p])
    ensures TakenBetween(tr, steps, a, b, p)
            || (p < |tr[b].ipc.procs| && SameSlot(tr[a].ipc.procs[p], tr[b].ipc.procs[p]))
    decreases b - a
  {
    hide KernelInv, MayAnswer, After, Enabled, BootState, IsRun, PostInv, Takes, SameSlot;
    RunSize(tr, steps);
    if a < b {
      StepAt(tr, steps, b - 1);
      SlotLasts(tr, steps, a, b - 1, p);
      if !TakenBetween(tr, steps, a, b - 1, p) {
        SameSlotFull(tr[a].ipc.procs[p], tr[b - 1].ipc.procs[p]);
        StepSlot(tr[b - 1], steps[b - 1], p);
        assert b - 1 + 1 == b;
        if SameSlot(tr[b - 1].ipc.procs[p], tr[b].ipc.procs[p]) {
          SameSlotTrans(tr[a].ipc.procs[p], tr[b - 1].ipc.procs[p], tr[b].ipc.procs[p]);
        }
      }
    } else {
      SameSlotSame(tr[a].ipc.procs[p]);
    }
  }

  lemma SameSlotSame(x: Proc)
    requires Full(x)
    ensures SameSlot(x, x)
  {
  }

  lemma SameSlotFull(x: Proc, y: Proc)
    requires SameSlot(x, y)
    ensures Full(y)
  {
  }

  lemma SameSlotTrans(x: Proc, y: Proc, z: Proc)
    requires SameSlot(x, y) && SameSlot(y, z)
    ensures SameSlot(x, z)
  {
  }

  /** m was in the slot of e from state a on, up to state b unless it was taken. */
  ghost predicate Stays(tr: seq<State>, steps: seq<Step>, a: nat, b: nat, e: Endpoint, m: Message) {
    && a <= b < |tr| && InSlot(tr[a].ipc, e, m)
    && forall x :: a <= x <= b ==> InSlot(tr[x].ipc, e, m) || TakenBetween(tr, steps, a, x, e.slot)
  }

  lemma SlotStays(tr: seq<State>, steps: seq<Step>, a: nat, b: nat, e: Endpoint, m: Message)
    requires IsRun(tr, steps) && a <= b < |tr| && InSlot(tr[a].ipc, e, m)
    ensures Stays(tr, steps, a, b, e, m)
  {
    hide IsRun;
    forall x | a <= x <= b ensures InSlot(tr[x].ipc, e, m) || TakenBetween(tr, steps, a, x, e.slot) {
      SlotLasts(tr, steps, a, x, e.slot);
    }
  }

  /** Step k delivered the n-th delivery of the log. */
  ghost predicate LetterHandedAt(tr: seq<State>, steps: seq<Step>, k: nat, b: nat, n: nat) {
    && k < b < |tr| && n < |tr[b].ipc.hist.delivered|
    && |tr[k].ipc.hist.delivered| <= n < |tr[k + 1].ipc.hist.delivered|
    && Stays(tr, steps, k + 1, b, tr[b].ipc.hist.delivered[n].to, tr[b].ipc.hist.delivered[n].message)
  }

  /** Every delivery in the log was made by a step after which the message was in the slot of
      its receiver, where it stayed until it was handed over. */
  lemma {:induction false} LettersArrive(tr: seq<State>, steps: seq<Step>, b: nat, n: nat)
    requires IsRun(tr, steps) && b < |tr| && n < |tr[b].ipc.hist.delivered|
    ensures exists k: nat :: LetterHandedAt(tr, steps, k, b, n)
  {
    hide IsRun, Stays;
    RunSize(tr, steps);
    var k := DeliveredAt(tr, steps, b, n);
    SlotsAreRight(tr, steps, k);
    RunGrows(tr, steps, k + 1, b);
    var d := tr[k + 1].ipc.hist.delivered[n];
    SlotStays(tr, steps, k + 1, b, d.to, d.message);
    assert LetterHandedAt(tr, steps, k, b, n);
  }

  lemma {:induction false} DeliveredAt(tr: seq<State>, steps: seq<Step>, b: nat, n: nat) returns (k: nat)
    requires IsRun(tr, steps) && b < |tr| && n < |tr[b].ipc.hist.delivered|
    ensures k < b && |tr[k].ipc.hist.delivered| <= n < |tr[k + 1].ipc.hist.delivered|
    decreases b
  {
    hide IsRun;
    RunSize(tr, steps);
    NothingAtBoot(tr, steps);
    if n < |tr[b - 1].ipc.hist.delivered| {
      k := DeliveredAt(tr, steps, b - 1, n);
    } else {
      k := b - 1;
    }
  }

  lemma NothingAtBoot(tr: seq<State>, steps: seq<Step>)
    requires IsRun(tr, steps)
    ensures tr[0].ipc.hist.delivered == [] && tr[0].ipc.hist.asynSent == [] && tr[0].ipc.hist.calls == []
  {
    hide BootFrom, Blank, KernelInv, After, Enabled;
    var n, image :| n >= NR_BOOT_PROCS && ImageOk(image) && tr[0] == BootState(n, image);
    BlankBooted(n);
    BootFromBooted(Blank(n), image, 0);
  }

  /** Step k sent element a of the log of asynchronous sends. */
  ghost predicate PostHandedAt(tr: seq<State>, steps: seq<Step>, k: nat, b: nat, n: nat) {
    && k < b < |tr| && n < |tr[b].ipc.hist.asynSent|
    && |tr[k].ipc.hist.asynSent| <= n < |tr[k + 1].ipc.hist.asynSent|
    && var h := tr[b].ipc.hist;
    && IsPost(h, h.asynSent[n])
    && Stays(tr, steps, k + 1, b, PostTo(h, h.asynSent[n]), PostMessage(h, h.asynSent[n]))
  }

  /** So was every asynchronous send: it is an element, not done yet, of the table that some
      SENDA call came with, and went to the process that the element names, with the body of
      the element, as a message of the caller. */
  lemma {:induction false} PostsArrive(tr: seq<State>, steps: seq<Step>, b: nat, n: nat)
    requires IsRun(tr, steps) && b < |tr| && n < |tr[b].ipc.hist.asynSent|
    ensures exists k: nat :: PostHandedAt(tr, steps, k, b, n)
  {
    hide IsRun, Stays;
    RunSize(tr, steps);
    var k := SentAt(tr, steps, b, n);
    SlotsAreRight(tr, steps, k);
    RunGrows(tr, steps, k + 1, b);
    var h := tr[k + 1].ipc.hist;
    SlotStays(tr, steps, k + 1, b, PostTo(h, h.asynSent[n]), PostMessage(h, h.asynSent[n]));
    assert PostHandedAt(tr, steps, k, b, n);
  }

  lemma {:induction false} SentAt(tr: seq<State>, steps: seq<Step>, b: nat, n: nat) returns (k: nat)
    requires IsRun(tr, steps) && b < |tr| && n < |tr[b].ipc.hist.asynSent|
    ensures k < b && |tr[k].ipc.hist.asynSent| <= n < |tr[k + 1].ipc.hist.asynSent|
    decreases b
  {
    hide IsRun;
    RunSize(tr, steps);
    NothingAtBoot(tr, steps);
    if n < |tr[b - 1].ipc.hist.asynSent| {
      k := SentAt(tr, steps, b - 1, n);
    } else {
      k := b - 1;
    }
  }

  // ------------------------------------------------------- notifications and signals

  /** A pending notification goes only into the slot of a process that it is pending for, as a
      notification of the owner of the bit, or with the process that it is from. */
  lemma NotificationsLast(tr: seq<State>, steps: seq<Step>, k: nat, v: nat, id: nat)
    requires IsRun(tr, steps) && k < |steps| && v < |tr[k].ipc.privs|
    requires id in tr[k].ipc.privs[v].notifyPending
    ensures var i, j := tr[k].ipc, tr[k + 1].ipc;
            && v < |j.privs|
            && (id in j.privs[v].notifyPending || BitTaken(i, j, v, id)
                || ((steps[k].Die? || steps[k].Leave?) && steps[k].rc < |i.procs| && id == i.procs[steps[k].rc].privId))
  {
    hide KernelInv, MayAnswer, After, BootState, IsRun, LettersHanded, PostsHanded, Explained, SignalsTaken, SlotsStay,
      Dispatches, BitTaken;
    RunSize(tr, steps);
    StepAt(tr, steps, k);
    if Ordinary(steps[k]) { StepHands(tr[k], steps[k]); } else { OtherHands(tr[k], steps[k]); }
  }

  /** A pending signal goes only into the slot of a process that it is pending for, in the
      notification of SYSTEM that carries it; one pending for VM may be handed over to VM by
      the same dispatch. */
  lemma SignalsLast(tr: seq<State>, steps: seq<Step>, k: nat, v: nat, sig: nat)
    requires IsRun(tr, steps) && k < |steps| && v < |tr[k].ipc.privs|
    requires sig in tr[k].ipc.privs[v].sigPending
    ensures var i, j := tr[k].ipc, tr[k + 1].ipc;
            && v < |j.privs|
            && (sig in j.privs[v].sigPending || Carried(i, j, v, SYSTEM, sig)
                || (steps[k].Dispatch? && ToldVm(i, j, v, sig)))
  {
    hide KernelInv, MayAnswer, After, BootState, IsRun, LettersHanded, PostsHanded, Explained, BitsTaken, SlotsStay,
      Carried, ToldVm;
    RunSize(tr, steps);
    StepAt(tr, steps, k);
    if Ordinary(steps[k]) { StepHands(tr[k], steps[k]); } else { OtherHands(tr[k], steps[k]); }
  }
}
