/** The meaning of ash's commands as rules, one for each way in which a command can go, and
    the proof that what follows from the rules is exactly what the interpreter computes. */
module ShellRules {
  import opened ShellEval

  /** What a rule says the result of: a command, the turns of a loop from now on, the rest of
      the words of a for, the clauses of a case from the k-th on. */
  datatype Part = Whole | Turns(last: int) | Over(words: seq<nat>) | Clauses(k: nat)

  datatype Claim<W> = Claim(part: Part, n: Node, s: Store<W>, depth: nat, inFunc: bool)

  predicate Proper<W>(c: Claim<W>) {
    match c.part
    case Whole => true
    case Turns(last) => c.n.Loop?
    case Over(words) => c.n.For?
    case Clauses(k) => c.n.Case? && k <= |c.n.clauses|
  }

  /** A derivation: the claim, its result, and the derivations that the rule builds on. */
  datatype Tree<W> = Tree(claim: Claim<W>, r: Result<W>, above: seq<Tree<W>>)

  // ------------------------------------------------------------------------ the rules

  /** There are no premises. */
  ghost predicate Axiom<W>(above: seq<Tree<W>>) { above == [] }

  /** The result is that of the one premise. */
  ghost predicate Same<W>(above: seq<Tree<W>>, c: Claim<W>, r: Result<W>) {
    |above| == 1 && above[0].claim == c && above[0].r == r
  }

  /** The one premise. */
  ghost predicate First<W>(above: seq<Tree<W>>, c: Claim<W>) { |above| == 1 && above[0].claim == c }

  /** The second premise goes on with command b where the first ended. */
  ghost predicate Then<W>(above: seq<Tree<W>>, c: Claim<W>, b: Node, r: Result<W>)
  {
    |above| == 2 && above[0].claim == c && above[1].claim == c.(n := b, s := above[0].r.s) && above[1].r == r
  }

  predicate Succeeds<W>(x: Result<W>) { x.how == Normal && x.s.status == 0 }

  predicate Fails<W>(x: Result<W>) { x.how == Normal && x.s.status != 0 }

  predicate Jumps<W>(x: Result<W>) { x.how != Normal }

  ghost predicate SemiRule<W>(a: Node, b: Node, c: Claim<W>, r: Result<W>, above: seq<Tree<W>>)
  {
    || (Same(above, c.(n := a), r) && Jumps(r))
    || (Then(above, c.(n := a), b, r) && !Jumps(above[0].r))
  }

  /** a && b: b is run exactly if a succeeds. */
  ghost predicate AndRule<W>(a: Node, b: Node, c: Claim<W>, r: Result<W>, above: seq<Tree<W>>)
  {
    || (Same(above, c.(n := a), r) && (Jumps(r) || Fails(r)))
    || (Then(above, c.(n := a), b, r) && Succeeds(above[0].r))
  }

  /** a || b: b is run exactly if a fails. */
  ghost predicate OrRule<W>(a: Node, b: Node, c: Claim<W>, r: Result<W>, above: seq<Tree<W>>)
  {
    || (Same(above, c.(n := a), r) && (Jumps(r) || Succeeds(r)))
    || (Then(above, c.(n := a), b, r) && Fails(above[0].r))
  }

  ghost predicate NotRule<W>(a: Node, c: Claim<W>, r: Result<W>, above: seq<Tree<W>>)
  {
    && First(above, c.(n := a)) && r.how == above[0].r.how
    && r.s == above[0].r.s.(status := if above[0].r.s.status == 0 then 1 else 0)
  }

  /** if: the first part is run exactly if the test succeeds, the else part exactly if it
      fails; without an else part, $? is then 0. */
  ghost predicate IfRule<W>(n: Node, c: Claim<W>, r: Result<W>, above: seq<Tree<W>>)
    requires n.If?
  {
    || (Same(above, c.(n := n.test), r) && Jumps(r))
    || (Then(above, c.(n := n.test), n.ifPart, r) && Succeeds(above[0].r))
    || (n.elsePart.Some? && Then(above, c.(n := n.test), n.elsePart.value, r) && Fails(above[0].r))
    || (n.elsePart.None? && First(above, c.(n := n.test)) && Fails(above[0].r)
        && r == Result(above[0].r.s.(status := 0), Normal))
  }

  /** A call runs the body of the function, and return ends there. */
  ghost predicate CallRule<W>(body: Node, c: Claim<W>, r: Result<W>, above: seq<Tree<W>>)
  {
    && First(above, c.(n := body, inFunc := true)) && r.s == above[0].r.s
    && r.how == if above[0].r.how == Return then Normal else above[0].r.how
  }

  /** How a loop is left: break n leaves one loop and n - 1 more, continue n leaves n - 1 and
      goes on with the next; the rest passes through. */
  predicate LeftBy(how: Outcome, out: Outcome) {
    match how
    case Normal => false
    case Break(n) => (n <= 1 && out == Normal) || (n > 1 && out == Break(n - 1))
    case Continue(n) => n > 1 && out == Continue(n - 1)
    case Return => out == Return
    case File => out == File
  }

  /** A turn is over, and the next one may begin. */
  predicate NextTurn(how: Outcome) { how == Normal || (how.Continue? && how.n <= 1) }

  /** while goes on as long as its condition succeeds, until as long as it fails. */
  predicate GoesOn<W>(until: bool, x: Result<W>) { if until then Fails(x) else Succeeds(x) }

  predicate Stops<W>(until: bool, x: Result<W>) { if until then Succeeds(x) else Fails(x) }

  /** The condition, then perhaps the body, then perhaps further turns. */
  ghost predicate TurnRule<W>(c: Claim<W>, r: Result<W>, above: seq<Tree<W>>)
    requires c.part.Turns? && c.n.Loop?
  {
    && |above| >= 1 && above[0].claim == Claim(Whole, c.n.ch1, c.s, c.depth + 1, c.inFunc)
    && var x := above[0].r;
    || (|above| == 1 && Stops(c.n.until, x) && r == Result(x.s.(status := c.part.last), Normal))
    || (|above| == 1 && LeftBy(x.how, r.how) && r.s == x.s.(status := c.part.last))
    || (|above| == 2 && Jumps(x) && NextTurn(x.how) && above[1].claim == c.(s := x.s) && r == above[1].r)
    || (|above| >= 2 && GoesOn(c.n.until, x) && BodyRule(c, x, r, above))
  }

  ghost predicate BodyRule<W>(c: Claim<W>, x: Result<W>, r: Result<W>, above: seq<Tree<W>>)
    requires c.part.Turns? && c.n.Loop? && |above| >= 2
  {
    && above[1].claim == Claim(Whole, c.n.ch2, x.s, c.depth + 1, c.inFunc)
    && var y := above[1].r;
    || (|above| == 2 && LeftBy(y.how, r.how) && r.s == y.s)
    || (|above| == 3 && NextTurn(y.how) && above[2].claim == c.(part := Turns(y.s.status), s := y.s) && r == above[2].r)
  }

  /** The body is run once for each word, in their order, with the variable set to it. */
  ghost predicate OverRule<W>(env: Env<W>, c: Claim<W>, r: Result<W>, above: seq<Tree<W>>)
    requires c.part.Over? && c.n.For?
  {
    if c.part.words == [] then Axiom(above) && r == Result(c.s, Normal)
    else
      && |above| >= 1
      && var s := c.s.(w := env.assign(c.n.variable, c.part.words[0], c.s.w));
      && above[0].claim == Claim(Whole, c.n.body, s, c.depth + 1, c.inFunc)
      && var x := above[0].r;
      || (|above| == 1 && LeftBy(x.how, r.how) && r.s == x.s)
      || (|above| == 2 && NextTurn(x.how) && r == above[1].r
          && above[1].claim == c.(part := Over(c.part.words[1..]), s := x.s))
  }

  /** The m-th clause is the first from the k-th on with a pattern that matches. */
  ghost predicate FirstMatch<W>(env: Env<W>, n: Node, k: nat, w: W, m: nat)
    requires n.Case?
  {
    && k <= m < |n.clauses| && AnyMatches(env, n.word, n.clauses[m].patterns, w)
    && forall j :: k <= j < m ==> !AnyMatches(env, n.word, n.clauses[j].patterns, w)
  }

  /** The first clause that matches is run, and nothing if none does. */
  ghost predicate ClauseRule<W>(env: Env<W>, c: Claim<W>, r: Result<W>, above: seq<Tree<W>>)
    requires c.part.Clauses? && c.n.Case?
  {
    || (exists m: nat :: FirstMatch(env, c.n, c.part.k, c.s.w, m)
                         && Same(above, Claim(Whole, c.n.clauses[m].body, c.s, c.depth, c.inFunc), r))
    || (Axiom(above) && r == Result(c.s, Normal) && !exists m: nat :: FirstMatch(env, c.n, c.part.k, c.s.w, m))
  }

  /** break and continue leave at most as many loops as there are. */
  predicate Left(cont: bool, count: Option<int>, depth: nat, how: Outcome) {
    var asked := if count.Some? then count.value else 1;
    if asked <= 0 || depth == 0 then how == Normal
    else how == if cont then Continue(Min(asked, depth)) else Break(Min(asked, depth))
  }

  ghost predicate RunRule<W>(env: Env<W>, c: Claim<W>, r: Result<W>, above: seq<Tree<W>>)
  {
    match c.n
    case Nothing => Axiom(above) && r == Result(c.s.(status := 0), Normal)
    case Semi(a, b) => SemiRule(a, b, c, r, above)
    case And(a, b) => AndRule(a, b, c, r, above)
    case Or(a, b) => OrRule(a, b, c, r, above)
    case Not(a) => NotRule(a, c, r, above)
    case If(test, ifPart, elsePart) => IfRule(c.n, c, r, above)
    case Loop(_, _, _) => Same(above, c.(part := Turns(0)), r)
    case For(_, ws, _) => Same(above, c.(part := Over(env.words(ws, c.s.w)), s := c.s.(status := 0)), r)
    case Case(_, _) => Same(above, c.(part := Clauses(0)), r)
    case Defun(f, body) => Axiom(above) && r == Result(c.s.(funcs := c.s.funcs[f := body], status := 0), Normal)
    case Command(cmd) =>
      if cmd in c.s.funcs then CallRule(c.s.funcs[cmd], c, r, above)
      else
        var (w, status) := env.run(cmd, c.s.w, c.s.status);
        Axiom(above) && r == Result(c.s.(w := w, status := status), Normal)
    case BreakCmd(cont, count) => Axiom(above) && r.s == c.s.(status := 0) && Left(cont, count, c.depth, r.how)
    case ReturnCmd(status) =>
      && Axiom(above) && r.how == (if c.inFunc then Return else File)
      && r.s == c.s.(status := if status.Some? then status.value else c.s.status)
  }

  ghost predicate Rule<W>(env: Env<W>, c: Claim<W>, r: Result<W>, above: seq<Tree<W>>)
    requires Proper(c)
  {
    match c.part
    case Whole => RunRule(env, c, r, above)
    case Turns(last) => TurnRule(c, r, above)
    case Over(words) => OverRule(env, c, r, above)
    case Clauses(k) => ClauseRule(env, c, r, above)
  }

  /** Every step of the derivation is by a rule. */
  ghost predicate Derives<W>(env: Env<W>, t: Tree<W>) {
    Proper(t.claim) && Rule(env, t.claim, t.r, t.above) && forall x :: 0 <= x < |t.above| ==> Derives(env, t.above[x])
  }

  // ------------------------------------------------------------ what is computed

  ghost function Computed<W>(env: Env<W>, c: Claim<W>, fuel: nat): Option<Result<W>>
    requires Proper(c)
  {
    match c.part
    case Whole => Meaning(env, c.n, c.s, c.depth, c.inFunc, fuel)
    case Turns(last) => LoopMeaning(env, c.n, c.s, c.depth, c.inFunc, last, fuel)
    case Over(words) => ForMeaning(env, c.n, words, c.s, c.depth, c.inFunc, fuel)
    case Clauses(k) => CaseMeaning(env, c.n, k, c.s, c.depth, c.inFunc, fuel)
  }

  lemma MoreForClaim<W>(env: Env<W>, c: Claim<W>, fuel: nat, more: nat)
    requires Proper(c) && fuel <= more && Computed(env, c, fuel).Some?
    ensures Computed(env, c, more) == Computed(env, c, fuel)
  {
    match c.part
    case Whole => MoreFuel(env, c.n, c.s, c.depth, c.inFunc, fuel, more);
    case Turns(last) => MoreFuelLoop(env, c.n, c.s, c.depth, c.inFunc, last, fuel, more);
    case Over(words) => MoreFuelFor(env, c.n, words, c.s, c.depth, c.inFunc, fuel, more);
    case Clauses(k) => MoreFuelCase(env, c.n, k, c.s, c.depth, c.inFunc, fuel, more);
  }

  /** Each premise is computed with the fuel given. */
  ghost predicate AllComputed<W>(env: Env<W>, above: seq<Tree<W>>, fuel: nat) {
    forall x :: 0 <= x < |above| ==> Proper(above[x].claim) && Computed(env, above[x].claim, fuel) == Some(above[x].r)
  }

  /** By a rule from what is computed, one more is computed with one more. */
  lemma RuleComputes<W>(env: Env<W>, c: Claim<W>, r: Result<W>, above: seq<Tree<W>>, fuel: nat)
    requires Proper(c) && Rule(env, c, r, above) && AllComputed(env, above, fuel)
    requires AllComputed(env, above, fuel + 1)
    ensures Computed(env, c, fuel + 1) == Some(r)
  {
    match c.part
    case Whole => RunComputes(env, c, r, above, fuel);
    case Turns(last) => TurnComputes(env, c, r, above, fuel);
    case Over(words) => OverComputes(env, c, r, above, fuel);
    case Clauses(k) => ClauseComputes(env, c, r, above, fuel);
  }

  lemma RunComputes<W>(env: Env<W>, c: Claim<W>, r: Result<W>, above: seq<Tree<W>>, fuel: nat)
    requires c.part.Whole? && RunRule(env, c, r, above) && AllComputed(env, above, fuel)
    requires AllComputed(env, above, fuel + 1)
    ensures Meaning(env, c.n, c.s, c.depth, c.inFunc, fuel + 1) == Some(r)
  {
    if |above| > 0 { assert Computed(env, above[0].claim, fuel + 1) == Some(above[0].r); }
    if |above| > 1 { assert Computed(env, above[1].claim, fuel + 1) == Some(above[1].r); }
    if |above| > 0 { assert Computed(env, above[0].claim, fuel) == Some(above[0].r); }
  }

  lemma TurnComputes<W>(env: Env<W>, c: Claim<W>, r: Result<W>, above: seq<Tree<W>>, fuel: nat)
    requires c.part.Turns? && Proper(c) && TurnRule(c, r, above)
    requires AllComputed(env, above, fuel) && AllComputed(env, above, fuel + 1)
    ensures LoopMeaning(env, c.n, c.s, c.depth, c.inFunc, c.part.last, fuel + 1) == Some(r)
  {
    assert Computed(env, above[0].claim, fuel + 1) == Some(above[0].r);
    if |above| > 1 {
      assert Computed(env, above[1].claim, fuel + 1) == Some(above[1].r);
      assert Computed(env, above[1].claim, fuel) == Some(above[1].r);
    }
    if |above| > 2 { assert Computed(env, above[2].claim, fuel) == Some(above[2].r); }
  }

  lemma OverComputes<W>(env: Env<W>, c: Claim<W>, r: Result<W>, above: seq<Tree<W>>, fuel: nat)
    requires c.part.Over? && Proper(c) && OverRule(env, c, r, above) && AllComputed(env, above, fuel + 1)
    ensures ForMeaning(env, c.n, c.part.words, c.s, c.depth, c.inFunc, fuel + 1) == Some(r)
  {
    if c.part.words != [] {
      assert Computed(env, above[0].claim, fuel + 1) == Some(above[0].r);
      if |above| > 1 { assert Computed(env, above[1].claim, fuel + 1) == Some(above[1].r); }
    }
  }

  lemma ClauseComputes<W>(env: Env<W>, c: Claim<W>, r: Result<W>, above: seq<Tree<W>>, fuel: nat)
    requires c.part.Clauses? && Proper(c) && ClauseRule(env, c, r, above) && AllComputed(env, above, fuel + 1)
    ensures CaseMeaning(env, c.n, c.part.k, c.s, c.depth, c.inFunc, fuel + 1) == Some(r)
  {
    if m: nat :| FirstMatch(env, c.n, c.part.k, c.s.w, m)
                 && Same(above, Claim(Whole, c.n.clauses[m].body, c.s, c.depth, c.inFunc), r) {
      assert Computed(env, above[0].claim, fuel + 1) == Some(above[0].r);
      MatchComputes(env, c, m, fuel + 1);
    } else {
      NoMatchComputes(env, c, fuel + 1);
    }
  }

  lemma {:induction false} MatchComputes<W>(env: Env<W>, c: Claim<W>, m: nat, fuel: nat)
    requires c.part.Clauses? && Proper(c) && FirstMatch(env, c.n, c.part.k, c.s.w, m)
    ensures CaseMeaning(env, c.n, c.part.k, c.s, c.depth, c.inFunc, fuel) ==
              Meaning(env, c.n.clauses[m].body, c.s, c.depth, c.inFunc, fuel)
    decreases m - c.part.k
  {
    if c.part.k < m { MatchComputes(env, c.(part := Clauses(c.part.k + 1)), m, fuel); }
  }

  lemma {:induction false} NoMatchComputes<W>(env: Env<W>, c: Claim<W>, fuel: nat)
    requires c.part.Clauses? && Proper(c) && !exists m: nat :: FirstMatch(env, c.n, c.part.k, c.s.w, m)
    ensures CaseMeaning(env, c.n, c.part.k, c.s, c.depth, c.inFunc, fuel) == Some(Result(c.s, Normal))
    decreases |c.n.clauses| - c.part.k
  {
    if c.part.k < |c.n.clauses| {
      assert !FirstMatch(env, c.n, c.part.k, c.s.w, c.part.k);
      var k := c.part.k + 1;
      forall m: nat | FirstMatch(env, c.n, k, c.s.w, m) ensures false {
        assert FirstMatch(env, c.n, c.part.k, c.s.w, m);
      }
      NoMatchComputes(env, c.(part := Clauses(k)), fuel);
    }
  }

  // ------------------------------------------------------------------- soundness

  /** What is derived is computed. */
  lemma {:induction false} Soundness<W>(env: Env<W>, t: Tree<W>) returns (fuel: nat)
    requires Derives(env, t)
    ensures Computed(env, t.claim, fuel) == Some(t.r)
    decreases t, |t.above| + 1
  {
    var f := PremisesSound(env, t, |t.above|);
    assert t.above[..|t.above|] == t.above;
    MorePremises(env, t.above, f);
    RuleComputes(env, t.claim, t.r, t.above, f);
    fuel := f + 1;
  }

  lemma {:induction false} PremisesSound<W>(env: Env<W>, t: Tree<W>, n: nat) returns (fuel: nat)
    requires Derives(env, t) && n <= |t.above|
    ensures AllComputed(env, t.above[..n], fuel)
    decreases t, n
  {
    if n == 0 {
      fuel := 0;
    } else {
      var f := PremisesSound(env, t, n - 1);
      var g := Soundness(env, t.above[n - 1]);
      fuel := if f < g then g else f;
      forall x | 0 <= x < n
        ensures Proper(t.above[x].claim) && Computed(env, t.above[x].claim, fuel) == Some(t.above[x].r)
      {
        if x < n - 1 {
          assert t.above[..n - 1][x] == t.above[x];
          MoreForClaim(env, t.above[x].claim, f, fuel);
        } else {
          MoreForClaim(env, t.above[x].claim, g, fuel);
        }
      }
    }
  }

  lemma MorePremises<W>(env: Env<W>, above: seq<Tree<W>>, fuel: nat)
    requires AllComputed(env, above, fuel)
    ensures AllComputed(env, above, fuel + 1)
  {
    forall x | 0 <= x < |above|
      ensures Proper(above[x].claim) && Computed(env, above[x].claim, fuel + 1) == Some(above[x].r)
    {
      MoreForClaim(env, above[x].claim, fuel, fuel + 1);
    }
  }

  // ---------------------------------------------------------------- completeness

  /** t derives the result that is computed for c. */
  ghost predicate Explains<W>(env: Env<W>, t: Tree<W>, c: Claim<W>, fuel: nat) {
    Proper(c) && t.claim == c && Computed(env, c, fuel) == Some(t.r) && Derives(env, t)
  }

  function Rank<W>(c: Claim<W>): nat
    requires Proper(c)
  {
    match c.part
    case Over(words) => |words|
    case Clauses(k) => |c.n.clauses| - k
    case _ => 0
  }

  /** What is computed is derived. */
  lemma {:induction false} Completeness<W>(env: Env<W>, c: Claim<W>, fuel: nat) returns (t: Tree<W>)
    requires Proper(c) && Computed(env, c, fuel).Some?
    ensures Explains(env, t, c, fuel)
    decreases fuel, c.n, if c.part.Whole? then 1 else 0, Rank(c), 1
  {
    match c.part
    case Whole => t := RunsDerived(env, c, fuel);
    case Turns(last) => t := TurnsDerived(env, c, fuel);
    case Over(words) => t := OverDerived(env, c, fuel);
    case Clauses(k) => t := ClausesDerived(env, c, fuel);
  }

  lemma {:induction false} RunsDerived<W>(env: Env<W>, c: Claim<W>, fuel: nat) returns (t: Tree<W>)
    requires c.part.Whole? && Computed(env, c, fuel).Some?
    ensures Explains(env, t, c, fuel)
    decreases fuel, c.n, 1, 0, 0
  {
    var r := Computed(env, c, fuel).value;
    match c.n
    case Semi(a, b) => t := PairDerived(env, c, a, b, fuel);
    case And(a, b) => t := PairDerived(env, c, a, b, fuel);
    case Or(a, b) => t := PairDerived(env, c, a, b, fuel);
    case Not(a) =>
      var x := Completeness(env, c.(n := a), fuel);
      t := Tree(c, r, [x]);
    case If(test, ifPart, elsePart) => t := IfDerived(env, c, fuel);
    case Loop(_, _, _) =>
      var x := Completeness(env, c.(part := Turns(0)), fuel);
      t := Tree(c, r, [x]);
    case For(_, ws, _) =>
      var x := Completeness(env, c.(part := Over(env.words(ws, c.s.w)), s := c.s.(status := 0)), fuel);
      t := Tree(c, r, [x]);
    case Case(_, _) =>
      var x := Completeness(env, c.(part := Clauses(0)), fuel);
      t := Tree(c, r, [x]);
    case Command(cmd) =>
      if cmd in c.s.funcs {
        var x := Completeness(env, c.(n := c.s.funcs[cmd], inFunc := true), fuel - 1);
        t := Tree(c, r, [x]);
      } else {
        t := Tree(c, r, []);
      }
    case _ => t := Tree(c, r, []);
  }

  lemma {:induction false} PairDerived<W>(env: Env<W>, c: Claim<W>, a: Node, b: Node, fuel: nat) returns (t: Tree<W>)
    requires c.part.Whole? && c.n in {Semi(a, b), And(a, b), Or(a, b)} && Computed(env, c, fuel).Some?
    ensures Explains(env, t, c, fuel)
    decreases fuel, c.n, 0, 0, 0
  {
    var r := Computed(env, c, fuel).value;
    var x := Completeness(env, c.(n := a), fuel);
    var on := !Jumps(x.r) && (c.n.Semi? || (if c.n.And? then Succeeds(x.r) else Fails(x.r)));
    if on {
      var y := Completeness(env, c.(n := b, s := x.r.s), fuel);
      t := Tree(c, r, [x, y]);
      assert Then(t.above, c.(n := a), b, r);
    } else {
      t := Tree(c, r, [x]);
      assert Same(t.above, c.(n := a), r);
    }
  }

  lemma {:induction false} IfDerived<W>(env: Env<W>, c: Claim<W>, fuel: nat) returns (t: Tree<W>)
    requires c.part.Whole? && c.n.If? && Computed(env, c, fuel).Some?
    ensures Explains(env, t, c, fuel)
    decreases fuel, c.n, 0, 0, 0
  {
    var r, n := Computed(env, c, fuel).value, c.n;
    var x := Completeness(env, c.(n := n.test), fuel);
    if Succeeds(x.r) {
      var y := Completeness(env, c.(n := n.ifPart, s := x.r.s), fuel);
      t := Tree(c, r, [x, y]);
      assert Then(t.above, c.(n := n.test), n.ifPart, r);
    } else if Fails(x.r) && n.elsePart.Some? {
      var y := Completeness(env, c.(n := n.elsePart.value, s := x.r.s), fuel);
      t := Tree(c, r, [x, y]);
      assert Then(t.above, c.(n := n.test), n.elsePart.value, r);
    } else {
      t := Tree(c, r, [x]);
      assert First(t.above, c.(n := n.test));
    }
  }

  lemma {:induction false} TurnsDerived<W>(env: Env<W>, c: Claim<W>, fuel: nat) returns (t: Tree<W>)
    requires c.part.Turns? && Proper(c) && Computed(env, c, fuel).Some?
    ensures Explains(env, t, c, fuel)
    decreases fuel, c.n, 0, 0, 0
  {
    var r, n := Computed(env, c, fuel).value, c.n;
    var x := Completeness(env, Claim(Whole, n.ch1, c.s, c.depth + 1, c.inFunc), fuel);
    if GoesOn(n.until, x.r) {
      var y := Completeness(env, Claim(Whole, n.ch2, x.r.s, c.depth + 1, c.inFunc), fuel);
      if NextTurn(y.r.how) {
        var z := Completeness(env, c.(part := Turns(y.r.s.status), s := y.r.s), fuel - 1);
        t := Tree(c, r, [x, y, z]);
        assert BodyRule(c, x.r, r, t.above);
      } else {
        t := Tree(c, r, [x, y]);
        assert BodyRule(c, x.r, r, t.above);
      }
    } else if Jumps(x.r) && NextTurn(x.r.how) {
      var z := Completeness(env, c.(s := x.r.s), fuel - 1);
      t := Tree(c, r, [x, z]);
    } else {
      t := Tree(c, r, [x]);
    }
  }

  lemma {:induction false} OverDerived<W>(env: Env<W>, c: Claim<W>, fuel: nat) returns (t: Tree<W>)
    requires c.part.Over? && Proper(c) && Computed(env, c, fuel).Some?
    ensures Explains(env, t, c, fuel)
    decreases fuel, c.n, 0, |c.part.words|, 0
  {
    var r, words := Computed(env, c, fuel).value, c.part.words;
    if words == [] {
      t := Tree(c, r, []);
    } else {
      var s := c.s.(w := env.assign(c.n.variable, words[0], c.s.w));
      var x := Completeness(env, Claim(Whole, c.n.body, s, c.depth + 1, c.inFunc), fuel);
      if NextTurn(x.r.how) {
        var y := Completeness(env, c.(part := Over(words[1..]), s := x.r.s), fuel);
        t := Tree(c, r, [x, y]);
      } else {
        t := Tree(c, r, [x]);
      }
    }
  }

  lemma {:induction false} ClausesDerived<W>(env: Env<W>, c: Claim<W>, fuel: nat) returns (t: Tree<W>)
    requires c.part.Clauses? && Proper(c) && Computed(env, c, fuel).Some?
    ensures Explains(env, t, c, fuel)
    decreases fuel, c.n, 0, |c.n.clauses| - c.part.k, 0
  {
    var r := Computed(env, c, fuel).value;
    if m: nat :| FirstMatch(env, c.n, c.part.k, c.s.w, m) {
      MatchComputes(env, c, m, fuel);
      var x := Completeness(env, Claim(Whole, c.n.clauses[m].body, c.s, c.depth, c.inFunc), fuel);
      t := Tree(c, r, [x]);
      assert Same(t.above, Claim(Whole, c.n.clauses[m].body, c.s, c.depth, c.inFunc), r);
    } else {
      NoMatchComputes(env, c, fuel);
      t := Tree(c, r, []);
    }
  }

  /** The rules give a command at most one result. */
  lemma OneResult<W>(env: Env<W>, t: Tree<W>, u: Tree<W>)
    requires Derives(env, t) && Derives(env, u) && t.claim == u.claim
    ensures t.r == u.r
  {
    var f := Soundness(env, t);
    var g := Soundness(env, u);
    if f < g { MoreForClaim(env, t.claim, f, g); } else { MoreForClaim(env, t.claim, g, f); }
  }

  // ----------------------------------------------------------- what simple commands do

  /** The world and $? after command c, which is not a function. */
  function Done<W>(env: Env<W>, c: nat, s: Store<W>): Store<W> {
    var (w, status) := env.run(c, s.w, s.status);
    s.(w := w, status := status)
  }

  /** c && d runs d exactly if c returns 0, and c || d exactly if it does not. */
  lemma AndOrRun<W>(env: Env<W>, c: nat, d: nat, s: Store<W>, depth: nat, inFunc: bool, fuel: nat)
    requires c !in s.funcs && d !in s.funcs
    ensures var x := Done(env, c, s);
            && Meaning(env, And(Command(c), Command(d)), s, depth, inFunc, fuel) ==
                 Some(Result(if x.status == 0 then Done(env, d, x) else x, Normal))
            && Meaning(env, Or(Command(c), Command(d)), s, depth, inFunc, fuel) ==
                 Some(Result(if x.status == 0 then x else Done(env, d, x), Normal))
  {
  }

  /** if c then d else e runs d if c returns 0 and e if not, never both. */
  lemma IfRuns<W>(env: Env<W>, c: nat, d: nat, e: nat, s: Store<W>, depth: nat, inFunc: bool, fuel: nat)
    requires c !in s.funcs && d !in s.funcs && e !in s.funcs
    ensures var x := Done(env, c, s);
            && Meaning(env, If(Command(c), Command(d), Some(Command(e))), s, depth, inFunc, fuel) ==
                 Some(Result(Done(env, if x.status == 0 then d else e, x), Normal))
            && Meaning(env, Not(Command(c)), s, depth, inFunc, fuel) ==
                 Some(Result(x.(status := if x.status == 0 then 1 else 0), Normal))
  {
  }

  /** The store after k turns of a loop with condition c and body d. */
  function AfterTurns<W>(env: Env<W>, c: nat, d: nat, s: Store<W>, k: nat): Store<W> {
    if k == 0 then s else Done(env, d, Done(env, c, AfterTurns(env, c, d, s, k - 1)))
  }

  /** Condition c of a while, or of an until, says to go on after k turns. */
  predicate AnotherTurn<W>(env: Env<W>, until: bool, c: nat, d: nat, s: Store<W>, k: nat) {
    (Done(env, c, AfterTurns(env, c, d, s, k)).status == 0) != until
  }

  lemma SameFunctions<W>(env: Env<W>, c: nat, d: nat, s: Store<W>, k: nat)
    ensures AfterTurns(env, c, d, s, k).funcs == s.funcs
  {
  }

  function LastStatus<W>(env: Env<W>, c: nat, d: nat, s: Store<W>, k: nat): int {
    if k == 0 then 0 else AfterTurns(env, c, d, s, k).status
  }

  lemma OneTurn<W>(env: Env<W>, until: bool, c: nat, d: nat, s: Store<W>, depth: nat, inFunc: bool, last: int,
                   fuel: nat)
    requires c !in s.funcs && d !in s.funcs
    ensures var n, x := Loop(until, Command(c), Command(d)), Done(env, c, s);
            && ((x.status == 0) == until ==>
                  LoopMeaning(env, n, s, depth, inFunc, last, fuel) == Some(Result(x.(status := last), Normal)))
            && ((x.status == 0) != until && fuel > 0 ==>
                  LoopMeaning(env, n, s, depth, inFunc, last, fuel) ==
                    LoopMeaning(env, n, Done(env, d, x), depth, inFunc, Done(env, d, x).status, fuel - 1))
  {
    var x := Done(env, c, s);
    assert Meaning(env, Command(c), s, depth + 1, inFunc, fuel) == Some(Result(x, Normal));
    assert Meaning(env, Command(d), x, depth + 1, inFunc, fuel) == Some(Result(Done(env, d, x), Normal));
  }

  lemma {:induction false} LoopRest<W>(env: Env<W>, until: bool, c: nat, d: nat, s: Store<W>, depth: nat, inFunc: bool,
                                       m: nat, n: nat, fuel: nat)
    requires c !in s.funcs && d !in s.funcs && m <= n && n - m <= fuel
    requires (forall k :: 0 <= k < n ==> AnotherTurn(env, until, c, d, s, k)) && !AnotherTurn(env, until, c, d, s, n)
    ensures LoopMeaning(env, Loop(until, Command(c), Command(d)), AfterTurns(env, c, d, s, m), depth, inFunc,
                        LastStatus(env, c, d, s, m), fuel) ==
            Some(Result(Done(env, c, AfterTurns(env, c, d, s, n)).(status := LastStatus(env, c, d, s, n)), Normal))
    decreases n - m
  {
    hide LoopMeaning, Done;
    SameFunctions(env, c, d, s, m);
    OneTurn(env, until, c, d, AfterTurns(env, c, d, s, m), depth, inFunc, LastStatus(env, c, d, s, m), fuel);
    if m < n {
      assert AnotherTurn(env, until, c, d, s, m);
      LoopRest(env, until, c, d, s, depth, inFunc, m + 1, n, fuel - 1);
    }
  }

  /** A loop of simple commands runs its body as often as its condition says to go on: with n
      the first turn that the condition refuses, the store is that after n turns and one more
      test, and $? is that of the last turn, or 0 if there was none. */
  lemma LoopRuns<W>(env: Env<W>, until: bool, c: nat, d: nat, s: Store<W>, depth: nat, inFunc: bool, n: nat, fuel: nat)
    requires c !in s.funcs && d !in s.funcs && n <= fuel
    requires (forall k :: 0 <= k < n ==> AnotherTurn(env, until, c, d, s, k)) && !AnotherTurn(env, until, c, d, s, n)
    ensures var last := LastStatus(env, c, d, s, n);
            Meaning(env, Loop(until, Command(c), Command(d)), s, depth, inFunc, fuel) ==
              Some(Result(Done(env, c, AfterTurns(env, c, d, s, n)).(status := last), Normal))
  {
    LoopRest(env, until, c, d, s, depth, inFunc, 0, n, fuel);
  }
}
