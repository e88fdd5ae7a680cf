/** The command-tree interpreter of ash (commands/ash/eval.c).  The source leaves loops and
    functions by setting evalskip and skipcount and having everybody look at them; here that
    is proved to be the usual structured meaning of break, continue and return. */
module ShellEval {

  datatype Option<+T> = None | Some(value: T)

  datatype Clause = Clause(patterns: seq<nat>, body: Node)

  /** A parse tree.  Words, patterns and simple commands are numbered; what they expand to
      or do is given by an Env. */
  datatype Node =
    | Nothing
    | Semi(ch1: Node, ch2: Node)
    | And(ch1: Node, ch2: Node)
    | Or(ch1: Node, ch2: Node)
    | Not(com: Node)
    | If(test: Node, ifPart: Node, elsePart: Option<Node>)
    | Loop(until: bool, ch1: Node, ch2: Node)
    | For(variable: nat, words: nat, body: Node)
    | Case(word: nat, clauses: seq<Clause>)
    | Defun(name: nat, body: Node)
    | Command(cmd: nat)
    | BreakCmd(cont: bool, count: Option<int>)
    | ReturnCmd(status: Option<int>)

  /** The outside world: what a simple command does and whether it names a function that is
      not defined, what a word list expands to, whether a word matches a pattern. */
  datatype Env<!W> = Env(
    run: (nat, W, int) -> (W, int), words: (nat, W) -> seq<nat>, assign: (nat, nat, W) -> W,
    matches: (nat, nat, W) -> bool)

  /** What the interpreter changes: the world, the defined functions, $?. */
  datatype Store<W> = Store(w: W, funcs: map<nat, Node>, status: int)

  // ------------------------------------------------------ the structured meaning

  /** How a command ends: normally, or on its way out of n more loops, of the next n - 1
      loops and back to the head of one more, of the function, or of the file. */
  datatype Outcome = Normal | Break(n: int) | Continue(n: int) | Return | File

  datatype Result<W> = Result(s: Store<W>, how: Outcome)

  /** Outcomes that make sense inside depth loops, and in a function or not. */
  predicate Sensible(how: Outcome, depth: nat, inFunc: bool) {
    match how
    case Normal => true
    case Break(n) => 1 <= n <= depth
    case Continue(n) => 1 <= n <= depth
    case Return => inFunc
    case File => !inFunc
  }

  function Min(a: int, b: int): int { if a < b then a else b }

  /** What a loop makes of the outcome of its condition or body: None to go on. */
  function Leave(how: Outcome): Option<Outcome> {
    match how
    case Normal => None
    case Break(n) => Some(if n > 1 then Break(n - 1) else Normal)
    case Continue(n) => if n > 1 then Some(Continue(n - 1)) else None
    case _ => Some(how)
  }

  /** The meaning of a tree inside depth loops.  None: not finished with this fuel. */
  function Meaning<W>(env: Env<W>, n: Node, s: Store<W>, depth: nat, inFunc: bool, fuel: nat): (r: Option<Result<W>>)
    ensures r.Some? ==> Sensible(r.value.how, depth, inFunc)
    decreases fuel, n, 1, 0
  {
    match n
    case Nothing => Some(Result(s.(status := 0), Normal))
    case Semi(a, b) =>
      var x := Meaning(env, a, s, depth, inFunc, fuel);
      if x.None? || x.value.how != Normal then x else Meaning(env, b, x.value.s, depth, inFunc, fuel)
    case And(a, b) =>
      var x := Meaning(env, a, s, depth, inFunc, fuel);
      if x.None? || x.value.how != Normal || x.value.s.status != 0 then x
      else Meaning(env, b, x.value.s, depth, inFunc, fuel)
    case Or(a, b) =>
      var x := Meaning(env, a, s, depth, inFunc, fuel);
      if x.None? || x.value.how != Normal || x.value.s.status == 0 then x
      else Meaning(env, b, x.value.s, depth, inFunc, fuel)
    case Not(a) =>
      var x := Meaning(env, a, s, depth, inFunc, fuel);
      if x.None? then x
      else Some(x.value.(s := x.value.s.(status := if x.value.s.status == 0 then 1 else 0)))
    case If(c, a, b) =>
      var x := Meaning(env, c, s, depth, inFunc, fuel);
      if x.None? || x.value.how != Normal then x
      else if x.value.s.status == 0 then Meaning(env, a, x.value.s, depth, inFunc, fuel)
      else if b.Some? then Meaning(env, b.value, x.value.s, depth, inFunc, fuel)
      else Some(x.value.(s := x.value.s.(status := 0)))
    case Loop(_, _, _) => LoopMeaning(env, n, s, depth, inFunc, 0, fuel)
    case For(_, ws, _) => ForMeaning(env, n, env.words(ws, s.w), s.(status := 0), depth, inFunc, fuel)
    case Case(_, cs) => CaseMeaning(env, n, 0, s, depth, inFunc, fuel)
    case Defun(f, body) => Some(Result(s.(funcs := s.funcs[f := body], status := 0), Normal))
    case Command(c) =>
      if c in s.funcs then
        if fuel == 0 then None
        else
          var x := Meaning(env, s.funcs[c], s, depth, true, fuel - 1);
          if x.Some? && x.value.how == Return then Some(x.value.(how := Normal)) else x
      else
        var (w, status) := env.run(c, s.w, s.status);
        Some(Result(s.(w := w, status := status), Normal))
    case BreakCmd(cont, count) =>
      var k := Min(if count.Some? then count.value else 1, depth);
      Some(Result(s.(status := 0), if k <= 0 then Normal else if cont then Continue(k) else Break(k)))
    case ReturnCmd(status) =>
      Some(Result(s.(status := if status.Some? then status.value else s.status), if inFunc then Return else File))
  }

  /** A loop; last is what it exits with. */
  function LoopMeaning<W>(env: Env<W>, n: Node, s: Store<W>, depth: nat, inFunc: bool, last: int, fuel: nat)
    : (r: Option<Result<W>>)
    requires n.Loop?
    ensures r.Some? ==> Sensible(r.value.how, depth, inFunc)
    decreases fuel, n, 0, 0
  {
    var x := Meaning(env, n.ch1, s, depth + 1, inFunc, fuel);
    if x.None? then None
    else if x.value.how != Normal then
      var out := Leave(x.value.how);
      if out.Some? then Some(Result(x.value.s.(status := last), out.value))
      else if fuel == 0 then None else LoopMeaning(env, n, x.value.s, depth, inFunc, last, fuel - 1)
    else if (x.value.s.status == 0) == n.until then Some(Result(x.value.s.(status := last), Normal))
    else
      var y := Meaning(env, n.ch2, x.value.s, depth + 1, inFunc, fuel);
      if y.None? then None
      else
        var out := if y.value.how == Normal then None else Leave(y.value.how);
        if out.Some? then Some(Result(y.value.s, out.value))
        else if fuel == 0 then None else LoopMeaning(env, n, y.value.s, depth, inFunc, y.value.s.status, fuel - 1)
  }

  function ForMeaning<W>(env: Env<W>, n: Node, words: seq<nat>, s: Store<W>, depth: nat, inFunc: bool, fuel: nat)
    : (r: Option<Result<W>>)
    requires n.For?
    ensures r.Some? ==> Sensible(r.value.how, depth, inFunc)
    decreases fuel, n, 0, |words|
  {
    if words == [] then Some(Result(s, Normal))
    else
      var x := Meaning(env, n.body, s.(w := env.assign(n.variable, words[0], s.w)), depth + 1, inFunc, fuel);
      if x.None? then None
      else
        var out := if x.value.how == Normal then None else Leave(x.value.how);
        if out.Some? then Some(Result(x.value.s, out.value))
        else ForMeaning(env, n, words[1..], x.value.s, depth, inFunc, fuel)
  }

  predicate AnyMatches<W>(env: Env<W>, word: nat, patterns: seq<nat>, w: W) {
    exists j :: 0 <= j < |patterns| && env.matches(word, patterns[j], w)
  }

  /** The first clause that matches, from the k-th on. */
  function CaseMeaning<W>(env: Env<W>, n: Node, k: nat, s: Store<W>, depth: nat, inFunc: bool, fuel: nat)
    : (r: Option<Result<W>>)
    requires n.Case? && k <= |n.clauses|
    ensures r.Some? ==> Sensible(r.value.how, depth, inFunc)
    decreases fuel, n, 0, |n.clauses| - k
  {
    if k == |n.clauses| then Some(Result(s, Normal))
    else if AnyMatches(env, n.word, n.clauses[k].patterns, s.w)
    then Meaning(env, n.clauses[k].body, s, depth, inFunc, fuel)
    else CaseMeaning(env, n, k + 1, s, depth, inFunc, fuel)
  }

  /** Fuel only decides whether there is a result, never which. */
  lemma {:induction false} MoreFuel<W>(env: Env<W>, n: Node, s: Store<W>, depth: nat, inFunc: bool, fuel: nat,
                                       more: nat)
    requires fuel <= more && Meaning(env, n, s, depth, inFunc, fuel).Some?
    ensures Meaning(env, n, s, depth, inFunc, more) == Meaning(env, n, s, depth, inFunc, fuel)
    decreases fuel, n, 1, 0
  {
    match n {
      case Semi(a, b) => TwoParts(env, n, a, b, s, depth, inFunc, fuel, more);
      case And(a, b) => TwoParts(env, n, a, b, s, depth, inFunc, fuel, more);
      case Or(a, b) => TwoParts(env, n, a, b, s, depth, inFunc, fuel, more);
      case Not(a) => MoreFuel(env, a, s, depth, inFunc, fuel, more);
      case If(c, a, b) =>
        TwoParts(env, n, c, a, s, depth, inFunc, fuel, more);
        if b.Some? { TwoParts(env, n, c, b.value, s, depth, inFunc, fuel, more); }
      case Loop(_, _, _) => MoreFuelLoop(env, n, s, depth, inFunc, 0, fuel, more);
      case For(_, ws, _) => MoreFuelFor(env, n, env.words(ws, s.w), s.(status := 0), depth, inFunc, fuel, more);
      case Case(_, _) => MoreFuelCase(env, n, 0, s, depth, inFunc, fuel, more);
      case Command(c) =>
        if c in s.funcs { MoreFuel(env, s.funcs[c], s, depth, true, fuel - 1, more - 1); }
      case _ =>
    }
  }

  /** a, then possibly b from where a ended. */
  lemma {:induction false} TwoParts<W>(env: Env<W>, n: Node, a: Node, b: Node, s: Store<W>, depth: nat, inFunc: bool,
                                       fuel: nat, more: nat)
    requires a < n && b < n && fuel <= more && Meaning(env, a, s, depth, inFunc, fuel).Some?
    ensures Meaning(env, a, s, depth, inFunc, more) == Meaning(env, a, s, depth, inFunc, fuel)
    ensures var t := Meaning(env, a, s, depth, inFunc, fuel).value.s;
            Meaning(env, b, t, depth, inFunc, fuel).Some? ==>
              Meaning(env, b, t, depth, inFunc, more) == Meaning(env, b, t, depth, inFunc, fuel)
    decreases fuel, n, 0, 0
  {
    MoreFuel(env, a, s, depth, inFunc, fuel, more);
    var t := Meaning(env, a, s, depth, inFunc, fuel).value.s;
    if Meaning(env, b, t, depth, inFunc, fuel).Some? { MoreFuel(env, b, t, depth, inFunc, fuel, more); }
  }

  lemma {:induction false} MoreFuelLoop<W>(env: Env<W>, n: Node, s: Store<W>, depth: nat, inFunc: bool, last: int,
                                           fuel: nat, more: nat)
    requires n.Loop? && fuel <= more && LoopMeaning(env, n, s, depth, inFunc, last, fuel).Some?
    ensures LoopMeaning(env, n, s, depth, inFunc, last, more) == LoopMeaning(env, n, s, depth, inFunc, last, fuel)
    decreases fuel, n, 0, 0
  {
    MoreFuel(env, n.ch1, s, depth + 1, inFunc, fuel, more);
    var x := Meaning(env, n.ch1, s, depth + 1, inFunc, fuel).value;
    if x.how != Normal {
      if Leave(x.how).None? { MoreFuelLoop(env, n, x.s, depth, inFunc, last, fuel - 1, more - 1); }
    } else if (x.s.status == 0) != n.until {
      MoreFuel(env, n.ch2, x.s, depth + 1, inFunc, fuel, more);
      var y := Meaning(env, n.ch2, x.s, depth + 1, inFunc, fuel).value;
      if y.how == Normal || Leave(y.how).None? {
        MoreFuelLoop(env, n, y.s, depth, inFunc, y.s.status, fuel - 1, more - 1);
      }
    }
  }

  lemma {:induction false} MoreFuelFor<W>(env: Env<W>, n: Node, words: seq<nat>, s: Store<W>, depth: nat, inFunc: bool,
                                          fuel: nat, more: nat)
    requires n.For? && fuel <= more && ForMeaning(env, n, words, s, depth, inFunc, fuel).Some?
    ensures ForMeaning(env, n, words, s, depth, inFunc, more) == ForMeaning(env, n, words, s, depth, inFunc, fuel)
    decreases fuel, n, 0, |words|
  {
    if words != [] {
      var t := s.(w := env.assign(n.variable, words[0], s.w));
      MoreFuel(env, n.body, t, depth + 1, inFunc, fuel, more);
      var x := Meaning(env, n.body, t, depth + 1, inFunc, fuel).value;
      if x.how == Normal || Leave(x.how).None? { MoreFuelFor(env, n, words[1..], x.s, depth, inFunc, fuel, more); }
    }
  }

  lemma {:induction false} MoreFuelCase<W>(env: Env<W>, n: Node, k: nat, s: Store<W>, depth: nat, inFunc: bool,
                                           fuel: nat, more: nat)
    requires n.Case? && k <= |n.clauses| && fuel <= more && CaseMeaning(env, n, k, s, depth, inFunc, fuel).Some?
    ensures CaseMeaning(env, n, k, s, depth, inFunc, more) == CaseMeaning(env, n, k, s, depth, inFunc, fuel)
    decreases fuel, n, 0, |n.clauses| - k
  {
    if k < |n.clauses| {
      if AnyMatches(env, n.word, n.clauses[k].patterns, s.w) {
        MoreFuel(env, n.clauses[k].body, s, depth, inFunc, fuel, more);
      } else {
        MoreFuelCase(env, n, k + 1, s, depth, inFunc, fuel, more);
      }
    }
  }

  // ------------------------------------------------------- leaving several loops

  /** m loops, one inside the other, around c. */
  function Nested(m: nat, v: nat, ws: nat, c: Node): Node {
    if m == 0 then c else For(v, ws, Nested(m - 1, v, ws, c))
  }

  /** The world after m loops were entered, each with its first word. */
  ghost function Entered<W(!new)>(env: Env<W>, m: nat, v: nat, ws: nat, w: W): W
    requires forall x: W :: env.words(ws, x) != []
  {
    if m == 0 then w else Entered(env, m - 1, v, ws, env.assign(v, env.words(ws, w)[0], w))
  }

  /** break n inside m loops, themselves inside depth more, leaves exactly min(n, depth + m)
      loops: every one of the m that it leaves was entered once, with its first word. */
  lemma {:induction false} BreakLeaves<W(!new)>(env: Env<W>, m: nat, v: nat, ws: nat, s: Store<W>, depth: nat,
                                                inFunc: bool, count: int, fuel: nat)
    requires (forall x: W :: env.words(ws, x) != []) && 1 <= m <= Min(count, depth + m)
    ensures var k := Min(count, depth + m);
            Meaning(env, Nested(m, v, ws, BreakCmd(false, Some(count))), s, depth, inFunc, fuel) ==
              Some(Result(s.(w := Entered(env, m, v, ws, s.w), status := 0), if k > m then Break(k - m) else Normal))
    decreases m
  {
    var c := BreakCmd(false, Some(count));
    var words := env.words(ws, s.w);
    var t := s.(w := env.assign(v, words[0], s.w), status := 0);
    if m == 1 {
      assert Nested(1, v, ws, c) == For(v, ws, c) by { assert Nested(0, v, ws, c) == c; }
      assert Entered(env, 1, v, ws, s.w) == t.w by { assert Entered(env, 0, v, ws, t.w) == t.w; }
      var k := Min(count, depth + 1);
      assert Meaning(env, c, t, depth + 1, inFunc, fuel) == Some(Result(t, Break(k)));
      assert ForMeaning(env, For(v, ws, c), words, s.(status := 0), depth, inFunc, fuel) ==
             Some(Result(t, if k > 1 then Break(k - 1) else Normal));
    } else {
      BreakLeaves(env, m - 1, v, ws, t, depth + 1, inFunc, count, fuel);
    }
  }

  // ------------------------------------------------------------- the interpreter

  datatype Skip = NoSkip | SkipBreak | SkipCont | SkipFunc | SkipFile

  /** evalskip and skipcount say what the outcome is. */
  predicate Says(evalskip: Skip, skipcount: int, how: Outcome) {
    match how
    case Normal => evalskip == NoSkip
    case Break(n) => evalskip == SkipBreak && skipcount == n
    case Continue(n) => evalskip == SkipCont && skipcount == n
    case Return => evalskip == SkipFunc
    case File => evalskip == SkipFile
  }

  class Shell<!W> {
    const env: Env<W>
    var store: Store<W>
    var evalskip: Skip
    var skipcount: int
    var loopnest: nat
    var funcnest: nat

    constructor (env: Env<W>, w: W)
      ensures this.env == env && store == Store(w, map[], 0)
      ensures evalskip == NoSkip && skipcount == 0 && loopnest == 0 && funcnest == 0
    {
      this.env := env;
      store := Store(w, map[], 0);
      evalskip, skipcount, loopnest, funcnest := NoSkip, 0, 0, 0;
    }

    /** The interpreter got to the result r, with the nesting counts back where they were. */
    twostate predicate Reached(r: Option<Result<W>>, ok: bool)
      reads this
    {
      && (ok <==> r.Some?)
      && (ok ==> store == r.value.s && Says(evalskip, skipcount, r.value.how))
      && loopnest == old(loopnest) && funcnest == old(funcnest)
    }

    /** evaltree(); ok is false when the fuel ran out. */
    method EvalTree(n: Node, fuel: nat) returns (ok: bool)
      requires evalskip == NoSkip
      modifies this
      ensures Reached(Meaning(env, n, old(store), loopnest, funcnest > 0, fuel), ok)
      ensures evalskip in {SkipBreak, SkipCont} && ok ==> 1 <= skipcount <= loopnest
      decreases fuel, n, 1, 0
    {
      match n
      case Nothing =>
        store := store.(status := 0);
        ok := true;
      case If(_, _, _) =>
        ok := EvalIf(n, fuel);
      case Semi(_, _) =>
        ok := EvalJoined(n, fuel);
      case And(_, _) =>
        ok := EvalJoined(n, fuel);
      case Or(_, _) =>
        ok := EvalJoined(n, fuel);
      case Not(a) =>
        ok := EvalTree(a, fuel);
        store := store.(status := if store.status == 0 then 1 else 0);
      case Loop(_, _, _) =>
        ok := EvalLoop(n, fuel);
      case For(_, _, _) =>
        ok := EvalFor(n, fuel);
      case Case(_, _) =>
        ok := EvalCase(n, fuel);
      case Defun(f, body) =>
        store := store.(funcs := store.funcs[f := body], status := 0);
        ok := true;
      case Command(c) =>
        ok := EvalCommand(c, fuel);
      case BreakCmd(cont, count) =>
        BreakOrContinue(cont, count);
        ok := true;
      case ReturnCmd(status) =>
        ReturnNow(status);
        ok := true;
    }

    /** The cases of evaltree() for ;, && and ||. */
    method EvalJoined(n: Node, fuel: nat) returns (ok: bool)
      requires evalskip == NoSkip && (n.Semi? || n.And? || n.Or?)
      modifies this
      ensures Reached(Meaning(env, n, old(store), loopnest, funcnest > 0, fuel), ok)
      ensures evalskip in {SkipBreak, SkipCont} && ok ==> 1 <= skipcount <= loopnest
      decreases fuel, n, 0, 0
    {
      ok := EvalTree(n.ch1, fuel);
      if !ok || evalskip != NoSkip || (n.And? && store.status != 0) || (n.Or? && store.status == 0) {
        return;
      }
      ok := EvalTree(n.ch2, fuel);
    }

    /** The case of evaltree() for if. */
    method EvalIf(n: Node, fuel: nat) returns (ok: bool)
      requires evalskip == NoSkip && n.If?
      modifies this
      ensures Reached(Meaning(env, n, old(store), loopnest, funcnest > 0, fuel), ok)
      ensures evalskip in {SkipBreak, SkipCont} && ok ==> 1 <= skipcount <= loopnest
      decreases fuel, n, 0, 0
    {
      ok := EvalTree(n.test, fuel);
      if !ok || evalskip != NoSkip {
        return;
      }
      if store.status == 0 {
        ok := EvalTree(n.ifPart, fuel);
      } else if n.elsePart.Some? {
        ok := EvalTree(n.elsePart.value, fuel);
      } else {
        store := store.(status := 0);
      }
    }

    /** The part of evalcommand() that runs a function or an ordinary command. */
    method EvalCommand(c: nat, fuel: nat) returns (ok: bool)
      requires evalskip == NoSkip
      modifies this
      ensures Reached(Meaning(env, Command(c), old(store), loopnest, funcnest > 0, fuel), ok)
      ensures evalskip in {SkipBreak, SkipCont} && ok ==> 1 <= skipcount <= loopnest
      decreases fuel, Command(c), 0, 0
    {
      if c in store.funcs {
        if fuel == 0 {
          return false;
        }
        funcnest := funcnest + 1;
        ok := EvalTree(store.funcs[c], fuel - 1);
        funcnest := funcnest - 1;
        if evalskip == SkipFunc {
          evalskip, skipcount := NoSkip, 0;
        }
      } else {
        var (w, status) := env.run(c, store.w, store.status);
        store := store.(w := w, status := status);
        ok := true;
      }
    }

    /** breakcmd(), for both break and continue. */
    method BreakOrContinue(cont: bool, count: Option<int>)
      requires evalskip == NoSkip
      modifies this
      ensures Reached(Meaning(env, BreakCmd(cont, count), old(store), loopnest, funcnest > 0, 0), true)
    {
      var n := if count.Some? then count.value else 1;
      if n > loopnest {
        n := loopnest;
      }
      if n > 0 {
        evalskip := if cont then SkipCont else SkipBreak;
        skipcount := n;
      }
      store := store.(status := 0);
    }

    /** returncmd(). */
    method ReturnNow(status: Option<int>)
      requires evalskip == NoSkip
      modifies this
      ensures Reached(Meaning(env, ReturnCmd(status), old(store), loopnest, funcnest > 0, 0), true)
    {
      var ret := if status.Some? then status.value else store.status;
      evalskip := if funcnest > 0 then SkipFunc else SkipFile;
      skipcount := 1;
      store := store.(status := ret);
    }

    /** What both loops do with evalskip: go on says that the loop continues. */
    method Skipping() returns (goOn: bool)
      requires evalskip != NoSkip && loopnest > 0
      requires evalskip in {SkipBreak, SkipCont} ==> skipcount >= 1
      modifies this`evalskip, this`skipcount
      ensures forall how :: how != Normal && Says(old(evalskip), old(skipcount), how) ==>
                (goOn <==> Leave(how).None?) && Says(evalskip, skipcount, if goOn then Normal else Leave(how).value)
    {
      if evalskip == SkipCont {
        skipcount := skipcount - 1;
        if skipcount <= 0 {
          evalskip := NoSkip;
          return true;
        }
      }
      if evalskip == SkipBreak {
        skipcount := skipcount - 1;
        if skipcount <= 0 {
          evalskip := NoSkip;
        }
      }
      return false;
    }

    /** One turn of evalloop(): goOn says that there is to be another, status is what the
        loop would exit with. */
    method LoopTurn(n: Node, fuel: nat, last: int) returns (ok: bool, goOn: bool, status: int)
      requires evalskip == NoSkip && n.Loop? && loopnest > 0
      modifies this
      ensures loopnest == old(loopnest) && funcnest == old(funcnest)
      ensures ok && goOn ==> evalskip == NoSkip
      ensures var r := LoopMeaning(env, n, old(store), loopnest - 1, funcnest > 0, last, fuel);
              if !ok then r.None?
              else if goOn then r == if fuel == 0 then None
                                     else LoopMeaning(env, n, store, loopnest - 1, funcnest > 0, status, fuel - 1)
              else r.Some? && r.value.s == store.(status := status) && Says(evalskip, skipcount, r.value.how)
      decreases fuel, n, 0, 0
    {
      status, goOn := last, false;
      ok := EvalTree(n.ch1, fuel);
      if !ok {
        return;
      }
      if evalskip == NoSkip {
        if (store.status == 0) == n.until {
          return;
        }
        ok := EvalTree(n.ch2, fuel);
        if !ok {
          return;
        }
        status := store.status;
      }
      goOn := true;
      if evalskip != NoSkip {
        goOn := Skipping();
      }
    }

    /** evalloop(). */
    method EvalLoop(n: Node, fuel: nat) returns (ok: bool)
      requires evalskip == NoSkip && n.Loop?
      modifies this
      ensures Reached(LoopMeaning(env, n, old(store), loopnest, funcnest > 0, 0, fuel), ok)
      ensures evalskip in {SkipBreak, SkipCont} && ok ==> 1 <= skipcount <= loopnest
      decreases fuel, n, 0, 1
    {
      hide Meaning, LoopMeaning;
      loopnest := loopnest + 1;
      var status, left := 0, fuel;
      while true
        invariant 0 <= left <= fuel && evalskip == NoSkip && loopnest == old(loopnest) + 1 && funcnest == old(funcnest)
        invariant LoopMeaning(env, n, old(store), old(loopnest), funcnest > 0, 0, fuel) ==
                  LoopMeaning(env, n, store, old(loopnest), funcnest > 0, status, left)
        decreases left
      {
        var goOn;
        ok, goOn, status := LoopTurn(n, left, status);
        if !ok || !goOn {
          break;
        }
        if left == 0 {
          ok := false;
          break;
        }
        left := left - 1;
      }
      loopnest := loopnest - 1;
      store := store.(status := status);
    }

    /** evalfor(). */
    method EvalFor(n: Node, fuel: nat) returns (ok: bool)
      requires evalskip == NoSkip && n.For?
      modifies this
      ensures Reached(Meaning(env, n, old(store), loopnest, funcnest > 0, fuel), ok)
      ensures evalskip in {SkipBreak, SkipCont} && ok ==> 1 <= skipcount <= loopnest
      decreases fuel, n, 0, 0
    {
      var words := env.words(n.words, store.w);
      store := store.(status := 0);
      loopnest := loopnest + 1;
      ok := true;
      while words != []
        invariant evalskip == NoSkip && ok && loopnest == old(loopnest) + 1 && funcnest == old(funcnest)
        invariant Meaning(env, n, old(store), old(loopnest), funcnest > 0, fuel) ==
                  ForMeaning(env, n, words, store, old(loopnest), funcnest > 0, fuel)
        decreases |words|
      {
        store := store.(w := env.assign(n.variable, words[0], store.w));
        ok := EvalTree(n.body, fuel);
        if !ok {
          break;
        }
        if evalskip != NoSkip {
          var goOn := Skipping();
          if !goOn {
            break;
          }
        }
        words := words[1..];
      }
      loopnest := loopnest - 1;
    }

    /** evalcase(). */
    method EvalCase(n: Node, fuel: nat) returns (ok: bool)
      requires evalskip == NoSkip && n.Case?
      modifies this
      ensures Reached(Meaning(env, n, old(store), loopnest, funcnest > 0, fuel), ok)
      ensures evalskip in {SkipBreak, SkipCont} && ok ==> 1 <= skipcount <= loopnest
      decreases fuel, n, 0, 0
    {
      var k := 0;
      while k < |n.clauses|
        invariant 0 <= k <= |n.clauses|
        invariant CaseMeaning(env, n, 0, store, loopnest, funcnest > 0, fuel) ==
                  CaseMeaning(env, n, k, store, loopnest, funcnest > 0, fuel)
      {
        var j := 0;
        while j < |n.clauses[k].patterns|
          invariant 0 <= j <= |n.clauses[k].patterns|
          invariant forall m :: 0 <= m < j ==> !env.matches(n.word, n.clauses[k].patterns[m], store.w)
        {
          if env.matches(n.word, n.clauses[k].patterns[j], store.w) {
            ok := EvalTree(n.clauses[k].body, fuel);
            return;
          }
          j := j + 1;
        }
        k := k + 1;
      }
      ok := true;
    }
  }
}
