/** Dining philosophers of Chapter2/Codes/dinning.c, for a ring of any size n >= 2: each
    step of each thread between two accesses to shared data is one step here. */
module Dining {

  datatype Mood = Eating | Hungry | Thinking

  /** Where a philosopher is: outside the two functions (Idle thinks, Eat eats), or inside
      take_fork or put_fork, before the statement the name tells. */
  datatype Pc =
    | Idle | TakeMood | TakeTest | TakeUnlock | Await
    | Eat | PutMood | PutLeft | PutRight | PutUnlock

  datatype Table = Table(mood: seq<Mood>, sem: seq<nat>, mutex: nat, pc: seq<Pc>)

  function Left(n: nat, p: nat): (r: nat)
    requires p < n
    ensures r < n
  {
    if p == 0 then n - 1 else p - 1
  }

  function Right(n: nat, p: nat): (r: nat)
    requires p < n
    ensures r < n && Left(n, r) == p
  {
    if p == n - 1 then 0 else p + 1
  }

  /** Left and Right are the source's macros: (phnum + n - 1) % n and (phnum + 1) % n. */
  lemma Ring(n: nat, p: nat)
    requires p < n
    ensures Left(n, p) == (p + n - 1) % n && Right(n, p) == (p + 1) % n
  {
    Mod(n, p + n - 1, if p == 0 then 0 else 1, Left(n, p));
    Mod(n, p + 1, if p == n - 1 then 1 else 0, Right(n, p));
  }

  lemma Mod(n: nat, x: nat, q: nat, r: nat)
    requires r < n && x == q * n + r
    ensures x % n == r
  {
    var d := x / n - q;
    assert x == (x / n) * n + x % n;
    assert d * n == r - x % n;
    Multiples(d, n);
  }

  lemma Multiples(d: int, n: nat)
    ensures d >= 1 ==> d * n >= n
    ensures d <= -1 ==> d * n <= -(n as int)
  {
  }

  predicate Shape(t: Table) {
    2 <= |t.mood| == |t.sem| == |t.pc|
  }

  /** test(). */
  function Test(t: Table, p: nat): (r: Table)
    requires Shape(t) && p < |t.pc|
  {
    var n := |t.pc|;
    if t.mood[p] == Hungry && t.mood[Left(n, p)] != Eating && t.mood[Right(n, p)] != Eating
    then t.(mood := t.mood[p := Eating], sem := t.sem[p := t.sem[p] + 1])
    else t
  }

  /** A thread waits only for the mutex or for its own semaphore. */
  predicate CanStep(t: Table, p: nat)
    requires Shape(t) && p < |t.pc|
  {
    match t.pc[p]
    case Idle => t.mutex > 0
    case Eat => t.mutex > 0
    case Await => t.sem[p] > 0
    case _ => true
  }

  function Step(t: Table, p: nat): (r: Table)
    requires Shape(t) && p < |t.pc| && CanStep(t, p)
    ensures Shape(r) && |r.pc| == |t.pc|
  {
    var n := |t.pc|;
    match t.pc[p]
    case Idle => t.(mutex := t.mutex - 1, pc := t.pc[p := TakeMood])
    case TakeMood => t.(mood := t.mood[p := Hungry], pc := t.pc[p := TakeTest])
    case TakeTest => Test(t, p).(pc := t.pc[p := TakeUnlock])
    case TakeUnlock => t.(mutex := t.mutex + 1, pc := t.pc[p := Await])
    case Await => t.(sem := t.sem[p := t.sem[p] - 1], pc := t.pc[p := Eat])
    case Eat => t.(mutex := t.mutex - 1, pc := t.pc[p := PutMood])
    case PutMood => t.(mood := t.mood[p := Thinking], pc := t.pc[p := PutLeft])
    case PutLeft => Test(t, Left(n, p)).(pc := t.pc[p := PutRight])
    case PutRight => Test(t, Right(n, p)).(pc := t.pc[p := PutUnlock])
    case PutUnlock => t.(mutex := t.mutex + 1, pc := t.pc[p := Idle])
  }

  /** main(), with every mood the same; the source leaves them 0, which is EATING. */
  function Start(n: nat, mood: Mood): Table
    requires n >= 2
  {
    Table(seq(n, p => mood), seq(n, p => 0), 1, seq(n, p => Idle))
  }

  ghost predicate IsRun(tr: seq<Table>, who: seq<nat>, n: nat, mood: Mood) {
    && n >= 2 && |tr| == |who| + 1 && tr[0] == Start(n, mood)
    && forall k :: 0 <= k < |who| ==>
         Shape(tr[k]) && who[k] < |tr[k].pc| && CanStep(tr[k], who[k]) && tr[k + 1] == Step(tr[k], who[k])
  }

  // ------------------------------------------------------------------ invariant

  /** Between a wait for the mutex and its signal. */
  predicate Inside(pc: Pc) {
    pc in {TakeMood, TakeTest, TakeUnlock, PutMood, PutLeft, PutRight, PutUnlock}
  }

  /** The forks have been granted and not yet put back. */
  predicate Holds(t: Table, p: nat)
    requires Shape(t) && p < |t.pc|
  {
    t.sem[p] > 0 || t.pc[p] in {Eat, PutMood}
  }

  ghost predicate PhilosopherOk(t: Table, p: nat)
    requires Shape(t) && p < |t.pc|
  {
    && t.sem[p] <= 1 && (t.sem[p] == 1 ==> t.pc[p] in {TakeUnlock, Await})
    && (Holds(t, p) ==> t.mood[p] == Eating)
    && (t.pc[p] in {Idle, TakeMood} ==> t.mood[p] != Hungry)
    && (t.pc[p] == TakeTest ==> t.mood[p] == Hungry)
    && (t.pc[p] in {TakeUnlock, Await} && t.sem[p] == 0 ==> t.mood[p] == Hungry)
    && (t.pc[p] in {PutLeft, PutRight, PutUnlock} ==> t.mood[p] == Thinking)
  }

  ghost predicate Inv(t: Table) {
    && Shape(t) && t.mutex <= 1
    && (forall p :: 0 <= p < |t.pc| ==> PhilosopherOk(t, p))
    && (forall p, q :: 0 <= p < q < |t.pc| ==> !(Inside(t.pc[p]) && Inside(t.pc[q])))
    && (t.mutex == 1 <==> NobodyInside(t.pc))
    && (forall p :: 0 <= p < |t.pc| && Holds(t, p) ==> !Holds(t, Right(|t.pc|, p)))
  }

  lemma StartInv(n: nat, mood: Mood)
    requires n >= 2 && mood != Hungry
    ensures Inv(Start(n, mood))
  {
  }

  lemma RightOfLeft(n: nat, p: nat)
    requires p < n
    ensures Right(n, Left(n, p)) == p
  {
  }

  predicate NobodyInside(pc: seq<Pc>) {
    forall p :: 0 <= p < |pc| ==> !Inside(pc[p])
  }

  /** Only one philosopher is inside, so nobody else touches anything meanwhile. */
  lemma StepPcs(t: Table, p: nat)
    requires Inv(t) && p < |t.pc| && CanStep(t, p)
    ensures var r := Step(t, p);
            && r.mutex <= 1
            && (forall a, b :: 0 <= a < b < |r.pc| ==> !(Inside(r.pc[a]) && Inside(r.pc[b])))
            && (r.mutex == 1 <==> NobodyInside(r.pc))
  {
    var r := Step(t, p);
    assert forall a :: 0 <= a < |t.pc| && a != p ==> r.pc[a] == t.pc[a];
    if Inside(t.pc[p]) {
      assert forall a :: 0 <= a < |t.pc| && a != p ==> !Inside(t.pc[a]);
    } else if !Inside(r.pc[p]) {
      assert NobodyInside(t.pc) <==> NobodyInside(r.pc) by {
        forall a | 0 <= a < |t.pc| ensures Inside(t.pc[a]) <==> Inside(r.pc[a]) {}
        SameInside(t.pc, r.pc);
      }
    }
    assert Inside(r.pc[p]) ==> !NobodyInside(r.pc);
  }

  lemma SameInside(a: seq<Pc>, b: seq<Pc>)
    requires |a| == |b| && forall p :: 0 <= p < |a| ==> (Inside(a[p]) <==> Inside(b[p]))
    ensures NobodyInside(a) <==> NobodyInside(b)
  {
  }

  /** test() on a philosopher that is fine grants its forks only if neither neighbour holds
      any. */
  lemma TestHolds(t: Table, p: nat)
    requires Shape(t) && p < |t.pc| && t.sem[p] <= 1
    requires forall q :: 0 <= q < |t.pc| && Holds(t, q) ==> t.mood[q] == Eating
    requires forall q :: 0 <= q < |t.pc| && Holds(t, q) ==> !Holds(t, Right(|t.pc|, q))
    ensures var r := Test(t, p);
            forall q :: 0 <= q < |t.pc| && Holds(r, q) ==> !Holds(r, Right(|t.pc|, q))
  {
    var r, n := Test(t, p), |t.pc|;
    forall q | 0 <= q < n && Holds(r, q) ensures !Holds(r, Right(n, q)) {
      RightOfLeft(n, p);
    }
  }

  lemma StepEach(t: Table, p: nat)
    requires Inv(t) && p < |t.pc| && CanStep(t, p)
    ensures forall q :: 0 <= q < |t.pc| ==> PhilosopherOk(Step(t, p), q)
  {
    var r := Step(t, p);
    forall q | 0 <= q < |t.pc| ensures PhilosopherOk(r, q) {
      assert PhilosopherOk(t, q) && PhilosopherOk(t, p);
      if Inside(t.pc[p]) && q != p { assert !Inside(t.pc[q]); }
    }
  }

  lemma StepApart(t: Table, p: nat)
    requires Inv(t) && p < |t.pc| && CanStep(t, p)
    ensures var r := Step(t, p); forall q :: 0 <= q < |t.pc| && Holds(r, q) ==> !Holds(r, Right(|t.pc|, q))
  {
    var n, r := |t.pc|, Step(t, p);
    forall q | 0 <= q < n ensures t.sem[q] <= 1 && (Holds(t, q) ==> t.mood[q] == Eating) { assert PhilosopherOk(t, q); }
    var s := match t.pc[p]
             case TakeTest => Test(t, p)
             case PutLeft => Test(t, Left(n, p))
             case PutRight => Test(t, Right(n, p))
             case _ => t;
    if t.pc[p] == TakeTest { TestHolds(t, p); }
    if t.pc[p] == PutLeft { TestHolds(t, Left(n, p)); }
    if t.pc[p] == PutRight { TestHolds(t, Right(n, p)); }
    forall q | 0 <= q < n ensures Holds(r, q) ==> Holds(s, q) {}
  }

  lemma StepInv(t: Table, p: nat)
    requires Inv(t) && p < |t.pc| && CanStep(t, p)
    ensures Inv(Step(t, p))
  {
    StepPcs(t, p);
    StepEach(t, p);
    StepApart(t, p);
  }

  lemma {:induction false} RunInv(tr: seq<Table>, who: seq<nat>, n: nat, mood: Mood, k: nat)
    requires IsRun(tr, who, n, mood) && mood != Hungry && k < |tr|
    ensures Inv(tr[k]) && |tr[k].pc| == n
  {
    if k == 0 {
      StartInv(n, mood);
    } else {
      RunInv(tr, who, n, mood, k - 1);
      assert tr[k - 1 + 1] == Step(tr[k - 1], who[k - 1]);
      StepInv(tr[k - 1], who[k - 1]);
    }
  }

  /** Asked for the forks, refused, and not woken. */
  predicate Blocked(t: Table, p: nat)
    requires Shape(t) && p < |t.pc|
  {
    t.pc[p] in {TakeUnlock, Await} && t.sem[p] == 0
  }

  /** In every state of every run, with the moods the source starts with as with any
      other: neighbours never both hold forks, semaphores are 0 or 1, the philosophers are
      never all blocked, and some thread can go on. */
  lemma Safe(tr: seq<Table>, who: seq<nat>, n: nat, mood: Mood, k: nat)
    requires IsRun(tr, who, n, mood) && mood != Hungry && k < |tr|
    ensures Shape(tr[k]) && |tr[k].pc| == n
    ensures forall p :: 0 <= p < n ==> !(Holds(tr[k], p) && Holds(tr[k], Right(n, p)))
    ensures forall p :: 0 <= p < n ==> tr[k].sem[p] <= 1
    ensures exists p :: 0 <= p < n && !Blocked(tr[k], p)
    ensures exists p :: 0 <= p < n && CanStep(tr[k], p)
  {
    RunInv(tr, who, n, mood, k);
    forall p | 0 <= p < n ensures tr[k].sem[p] <= 1 { assert PhilosopherOk(tr[k], p); }
    var p := Unblocked(tr, who, n, mood, k);
    var t := tr[k];
    if t.mutex == 1 {
      assert CanStep(t, p);
    } else {
      var q :| 0 <= q < n && Inside(t.pc[q]);
      assert CanStep(t, q);
    }
  }

  /** The last to be refused would have had all others blocked, so nobody eating. */
  lemma {:induction false} Unblocked(tr: seq<Table>, who: seq<nat>, n: nat, mood: Mood, k: nat) returns (p: nat)
    requires IsRun(tr, who, n, mood) && mood != Hungry && k < |tr|
    ensures |tr[k].pc| == n && Shape(tr[k]) && p < n && !Blocked(tr[k], p)
  {
    RunInv(tr, who, n, mood, k);
    if k == 0 {
      p := 0;
    } else {
      RunInv(tr, who, n, mood, k - 1);
      p := Unblocked(tr, who, n, mood, k - 1);
      var t, w := tr[k - 1], who[k - 1];
      assert tr[k - 1 + 1] == Step(t, w);
      p := UnblockedAfter(t, w, p);
    }
  }

  lemma UnblockedAfter(t: Table, w: nat, p: nat) returns (q: nat)
    requires Inv(t) && w < |t.pc| && CanStep(t, w) && p < |t.pc| && !Blocked(t, p)
    ensures q < |t.pc| && !Blocked(Step(t, w), q)
  {
    var n, r := |t.pc|, Step(t, w);
    q := p;
    if Blocked(r, p) {
      assert p == w && t.pc[w] == TakeTest && PhilosopherOk(t, w);
      var l, m := Left(n, w), Right(n, w);
      q := if t.mood[l] == Eating then l else m;
      assert PhilosopherOk(t, q);
      assert t.mood[q] == Eating && q != w;
    }
  }

  // --------------------------------------------------------- who is kept waiting

  /** A neighbour eats, or is about to look whether p can. */
  predicate ForAReason(t: Table, p: nat)
    requires Shape(t) && p < |t.pc|
  {
    var l, r := Left(|t.pc|, p), Right(|t.pc|, p);
    || t.mood[l] == Eating || t.mood[r] == Eating
    || t.pc[r] == PutLeft || t.pc[l] in {PutLeft, PutRight}
  }

  /** Nobody waits for forks that are free. */
  ghost predicate Fair(t: Table) {
    Shape(t) && forall p :: 0 <= p < |t.pc| && Blocked(t, p) ==> ForAReason(t, p)
  }

  /** Eating means holding the forks: true from the start if nobody starts out EATING. */
  ghost predicate Honest(t: Table) {
    Shape(t) && forall p :: 0 <= p < |t.pc| && t.mood[p] == Eating ==> Holds(t, p)
  }

  lemma StepHonest(t: Table, p: nat)
    requires Inv(t) && Honest(t) && p < |t.pc| && CanStep(t, p)
    ensures Honest(Step(t, p))
  {
    var r := Step(t, p);
    forall q | 0 <= q < |t.pc| && r.mood[q] == Eating ensures Holds(r, q) {
      assert PhilosopherOk(t, q) && PhilosopherOk(t, p);
    }
  }

  lemma StepFair(t: Table, p: nat)
    requires Inv(t) && Honest(t) && Fair(t) && p < |t.pc| && CanStep(t, p)
    ensures Fair(Step(t, p))
  {
    forall q | 0 <= q < |t.pc| && Blocked(Step(t, p), q) ensures ForAReason(Step(t, p), q) {
      StepFairTo(t, p, q);
    }
  }

  lemma StepFairTo(t: Table, p: nat, q: nat)
    requires Inv(t) && Honest(t) && Fair(t) && p < |t.pc| && CanStep(t, p) && q < |t.pc| && Blocked(Step(t, p), q)
    ensures ForAReason(Step(t, p), q)
  {
    var n := |t.pc|;
    RightOfLeft(n, q);
    assert PhilosopherOk(t, q) && PhilosopherOk(t, p);
    assert PhilosopherOk(t, Left(n, q)) && PhilosopherOk(t, Right(n, q));
    if Blocked(t, q) {
      assert ForAReason(t, q);
    } else {
      assert p == q && t.pc[p] == TakeTest;
    }
  }

  /** From moods that are honest, nobody is ever kept waiting without a reason. */
  lemma {:induction false} ThinkingIsFair(tr: seq<Table>, who: seq<nat>, n: nat, k: nat)
    requires IsRun(tr, who, n, Thinking) && k < |tr|
    ensures Inv(tr[k]) && Honest(tr[k]) && Fair(tr[k])
  {
    RunInv(tr, who, n, Thinking, k);
    if k > 0 {
      ThinkingIsFair(tr, who, n, k - 1);
      assert tr[k - 1 + 1] == Step(tr[k - 1], who[k - 1]);
      StepHonest(tr[k - 1], who[k - 1]);
      StepFair(tr[k - 1], who[k - 1]);
    }
  }

  /** One more step. */
  lemma Extend(tr: seq<Table>, who: seq<nat>, n: nat, mood: Mood, p: nat)
    requires IsRun(tr, who, n, mood) && Shape(tr[|tr| - 1]) && p < |tr[|tr| - 1].pc| && CanStep(tr[|tr| - 1], p)
    ensures IsRun(tr + [Step(tr[|tr| - 1], p)], who + [p], n, mood)
  {
    var tr', who' := tr + [Step(tr[|tr| - 1], p)], who + [p];
    forall k | 0 <= k < |who'|
      ensures Shape(tr'[k]) && who'[k] < |tr'[k].pc| && CanStep(tr'[k], who'[k]) && tr'[k + 1] == Step(tr'[k], who'[k])
    {
      if k < |who| { assert tr[k + 1] == Step(tr[k], who[k]); }
    }
  }

  /** Philosopher p asks for the forks while q, beside it, has the mood EATING. */
  lemma Refuse(tr: seq<Table>, who: seq<nat>, n: nat, mood: Mood, p: nat, q: nat)
    returns (tr': seq<Table>, who': seq<nat>)
    requires IsRun(tr, who, n, mood)
    requires var t := tr[|tr| - 1];
             && Shape(t) && |t.pc| == n && p < n && q < n && q != p && (q == Left(n, p) || q == Right(n, p))
             && t.mutex == 1 && t.pc[p] == Idle && t.mood[q] == Eating
    ensures IsRun(tr', who', n, mood)
    ensures var t := tr[|tr| - 1];
            tr'[|tr'| - 1] == t.(mood := t.mood[p := Hungry], pc := t.pc[p := Await])
  {
    var t := tr[|tr| - 1];
    tr', who' := tr, who;
    var i := 0;
    while i < 4
      invariant 0 <= i <= 4 && IsRun(tr', who', n, mood)
      invariant tr'[|tr'| - 1] == if i == 0 then t
                else if i == 1 then t.(mutex := 0, pc := t.pc[p := TakeMood])
                else if i == 2 then t.(mutex := 0, mood := t.mood[p := Hungry], pc := t.pc[p := TakeTest])
                else if i == 3 then t.(mutex := 0, mood := t.mood[p := Hungry], pc := t.pc[p := TakeUnlock])
                else t.(mood := t.mood[p := Hungry], pc := t.pc[p := Await])
    {
      Extend(tr', who', n, mood, p);
      var last := tr'[|tr'| - 1];
      assert last.pc[p := TakeTest][p := TakeUnlock] == last.pc[p := TakeUnlock];
      tr', who' := tr' + [Step(last, p)], who' + [p];
      i := i + 1;
    }
  }

  /** As the source starts, with every mood EATING, philosopher 1 can be left waiting while
      nobody around it eats and nobody is in the critical section: 1, 0 and 2 ask for their
      forks in that order. */
  lemma EatingIsUnfair(n: nat) returns (tr: seq<Table>, who: seq<nat>)
    requires n >= 4
    ensures IsRun(tr, who, n, Eating) && !Fair(tr[|tr| - 1]) && tr[|tr| - 1].mutex == 1
  {
    tr, who := [Start(n, Eating)], [];
    tr, who := Refuse(tr, who, n, Eating, 1, 2);
    tr, who := Refuse(tr, who, n, Eating, 0, n - 1);
    tr, who := Refuse(tr, who, n, Eating, 2, 3);
    var t := tr[|tr| - 1];
    assert Blocked(t, 1) && !ForAReason(t, 1);
  }

  /** Two or three can be left waiting only while the last of them makes up its mind: it has
      put on its mood but not yet looked for forks. */
  lemma FewAreUnfair(n: nat) returns (tr: seq<Table>, who: seq<nat>)
    requires 2 <= n <= 3
    ensures IsRun(tr, who, n, Eating) && !Fair(tr[|tr| - 1])
  {
    tr, who := [Start(n, Eating)], [];
    tr, who := Refuse(tr, who, n, Eating, 1, 0);
    var last := 0;
    if n == 3 {
      tr, who := Refuse(tr, who, n, Eating, 0, 2);
      last := 2;
    }
    Extend(tr, who, n, Eating, last);
    tr, who := tr + [Step(tr[|tr| - 1], last)], who + [last];
    Extend(tr, who, n, Eating, last);
    tr, who := tr + [Step(tr[|tr| - 1], last)], who + [last];
    var t := tr[|tr| - 1];
    assert Blocked(t, 1) && !ForAReason(t, 1);
  }

  /** Nobody is ever kept waiting without a reason exactly when the philosophers start out
      with the mood THINKING. */
  lemma FairExactly(n: nat, mood: Mood)
    requires n >= 2 && mood != Hungry
    ensures (forall tr, who, k :: IsRun(tr, who, n, mood) && 0 <= k < |tr| ==> Fair(tr[k])) <==> mood == Thinking
  {
    if mood == Thinking {
      forall tr, who, k | IsRun(tr, who, n, mood) && 0 <= k < |tr| ensures Fair(tr[k]) {
        ThinkingIsFair(tr, who, n, k);
      }
    } else {
      var tr, who;
      if n >= 4 {
        tr, who := EatingIsUnfair(n);
      } else {
        tr, who := FewAreUnfair(n);
      }
      assert IsRun(tr, who, n, mood) && !Fair(tr[|tr| - 1]);
    }
  }

  // ------------------------------------------------------- the shared variables

  /** state[] and S[], changed in place while the mutex is held. */
  class Forks {
    const mood: array<Mood>
    const sem: array<nat>

    ghost predicate Valid()
      reads this
    {
      2 <= mood.Length == sem.Length
    }

    ghost predicate Shows(t: Table)
      reads this, mood, sem
    {
      mood[..] == t.mood && sem[..] == t.sem
    }

    constructor (n: nat)
      requires n >= 2
      ensures Valid() && mood.Length == n && Shows(Start(n, Eating)) && fresh(mood) && fresh(sem)
    {
      mood := new Mood[n](_ => Eating);
      sem := new nat[n](_ => 0);
    }

    /** test(). */
    method TryEat(p: nat, ghost t: Table)
      requires Valid() && Shape(t) && Shows(t) && p < |t.pc|
      modifies mood, sem
      ensures Shows(Test(t, p))
    {
      var n := mood.Length;
      if mood[p] == Hungry && mood[Left(n, p)] != Eating && mood[Right(n, p)] != Eating {
        mood[p] := Eating;
        sem[p] := sem[p] + 1;
      }
    }

    /** take_fork() between its wait for the mutex and its signal. */
    method TakeFork(p: nat, ghost t: Table)
      requires Valid() && Shape(t) && Shows(t) && p < |t.pc| && t.pc[p] == TakeMood
      modifies mood, sem
      ensures Shows(Step(Step(t, p), p))
    {
      mood[p] := Hungry;
      TryEat(p, Step(t, p));
    }

    /** put_fork() likewise. */
    method PutFork(p: nat, ghost t: Table)
      requires Valid() && Shape(t) && Shows(t) && p < |t.pc| && t.pc[p] == PutMood
      modifies mood, sem
      ensures Shows(Step(Step(Step(t, p), p), p))
    {
      var n := mood.Length;
      mood[p] := Thinking;
      TryEat(Left(n, p), Step(t, p));
      TryEat(Right(n, p), Step(Step(t, p), p));
    }
  }
}
