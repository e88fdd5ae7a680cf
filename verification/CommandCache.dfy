/** The command table of ash (commands/ash/exec.c): it remembers where in PATH a command was
    found, and is told about cd and about changes of PATH. */
module CommandCache {

  datatype Option<+T> = None | Some(value: T)

  // ----------------------------------------------------------- searching a path

  /** The parts of a string between its colons. */
  function Split(path: string): (r: seq<string>)
    ensures |r| >= 1
  {
    if path == "" then [""]
    else
      var rest := Split(path[1..]);
      if path[0] == ':' then [""] + rest else [[path[0]] + rest[0]] + rest[1..]
  }

  /** Where the option of a component starts: at its first '%', if it has one. */
  function OptionAt(c: string): (k: nat)
    ensures k <= |c| && (k < |c| ==> c[k] == '%') && forall j :: 0 <= j < k ==> c[j] != '%'
  {
    if c == "" || c[0] == '%' then 0 else 1 + OptionAt(c[1..])
  }

  datatype Kind = Plain | Builtin | Ignored

  /** The option says %builtin. */
  predicate ForBuiltins(s: string) { "builtin" <= s }

  function KindOf(c: string): Kind {
    var k := OptionAt(c);
    if k == |c| then Plain else if ForBuiltins(c[k + 1..]) then Builtin else Ignored
  }

  /** The name padvance() makes for a command in a component. */
  function FullName(c: string, name: string): string {
    var dir := c[..OptionAt(c)];
    if dir == "" then name else dir + "/" + name
  }

  predicate Absolute(f: string) { f != "" && f[0] == '/' }

  /** Builtins, and which names are regular files as seen from a directory.  Files do not
      change, and absolute names mean the same everywhere. */
  datatype Env<!D(!new)> = Env(builtins: set<string>, regular: (D, string) -> bool)

  ghost predicate EnvOk<D(!new)>(env: Env<D>) {
    forall d: D, e: D, f :: Absolute(f) ==> env.regular(d, f) == env.regular(e, f)
  }

  datatype Found = NotFound | IsBuiltin | Normal(index: nat)

  /** Component c has the command. */
  predicate Provides<D(!new)>(env: Env<D>, cwd: D, c: string, name: string) {
    KindOf(c) == Plain && env.regular(cwd, FullName(c, name))
  }

  /** The first component from the k-th on that has the command, or that stands for the
      builtins if it is one. */
  function Search<D(!new)>(env: Env<D>, cs: seq<string>, cwd: D, name: string, k: nat): Found
    requires k <= |cs|
    decreases |cs| - k
  {
    if k == |cs| then NotFound
    else if KindOf(cs[k]) == Builtin && name in env.builtins then IsBuiltin
    else if Provides(env, cwd, cs[k], name) then Normal(k)
    else Search(env, cs, cwd, name, k + 1)
  }

  /** The index of the first component for builtins, or -1. */
  function BuiltinLoc(cs: seq<string>, k: nat): (r: int)
    requires k <= |cs|
    ensures r == -1 || k <= r < |cs|
    decreases |cs| - k
  {
    if k == |cs| then -1 else if KindOf(cs[k]) == Builtin then k else BuiltinLoc(cs, k + 1)
  }

  /** One of the options of a component says %builtin.  The search along the path heeds only
      the first option, KindOf; changepath() looks for any. */
  predicate HasBuiltin(c: string) {
    c != "" && ((c[0] == '%' && ForBuiltins(c[1..])) || HasBuiltin(c[1..]))
  }

  /** The index of the first component with such an option, or -1. */
  function FirstHas(cs: seq<string>, k: nat): (r: int)
    requires k <= |cs|
    ensures r == -1 || k <= r < |cs|
    decreases |cs| - k
  {
    if k == |cs| then -1 else if HasBuiltin(cs[k]) then k else FirstHas(cs, k + 1)
  }

  /** builtinloc. */
  function Loc(path: string): int { FirstHas(Split(path), 0) }

  /** What a search that remembers nothing finds. */
  function Fresh<D(!new)>(env: Env<D>, path: string, cwd: D, name: string): Found {
    if Loc(path) < 0 && name in env.builtins then IsBuiltin else Search(env, Split(path), cwd, name, 0)
  }

  lemma {:induction false} HasOption(c: string)
    ensures HasBuiltin(c) ==> OptionAt(c) < |c|
    ensures KindOf(c) == Builtin ==> HasBuiltin(c)
  {
    if c != "" {
      HasOption(c[1..]);
      if c[0] != '%' {
        var k := OptionAt(c[1..]);
        assert k < |c[1..]| ==> c[1..][k + 1..] == c[k + 2..];
      }
    }
  }

  /** builtinloc is not after the component that the search takes for the builtins, and not
      at one where it looks for files. */
  lemma {:induction false} FirstHasFirst(cs: seq<string>, k: nat)
    requires k <= |cs|
    ensures BuiltinLoc(cs, k) >= 0 ==> 0 <= FirstHas(cs, k) <= BuiltinLoc(cs, k)
    ensures FirstHas(cs, k) >= 0 ==> KindOf(cs[FirstHas(cs, k)]) != Plain
    decreases |cs| - k
  {
    if k < |cs| {
      HasOption(cs[k]);
      FirstHasFirst(cs, k + 1);
    }
  }

  // ------------------------------------------------------------------ the table

  /** found is never NotFound in the table. */
  datatype Entry = Entry(found: Found, rehash: bool)

  datatype Cache<D> = Cache(path: string, cwd: D, table: map<string, Entry>)

  /** Every entry that is not to be rehashed is right, and every other one was right in some
      directory. */
  ghost predicate Right<D(!new)>(env: Env<D>, s: Cache<D>) {
    forall name :: name in s.table ==> EntryRight(env, s, name)
  }

  ghost predicate EntryRight<D(!new)>(env: Env<D>, s: Cache<D>, name: string)
    requires name in s.table
  {
    var e := s.table[name];
    && e.found != NotFound
    && (if e.rehash then exists d: D :: Fresh(env, s.path, d, name) == e.found
        else Fresh(env, s.path, s.cwd, name) == e.found)
  }

  /** The search with the shortcut: absolute names before prev need not be tried again, and
      one at prev is still there. */
  function Research<D(!new)>(env: Env<D>, cs: seq<string>, cwd: D, name: string, k: nat, prev: int): Found
    requires k <= |cs|
    decreases |cs| - k
  {
    if k == |cs| then NotFound
    else if KindOf(cs[k]) == Builtin && name in env.builtins then IsBuiltin
    else if KindOf(cs[k]) != Plain then Research(env, cs, cwd, name, k + 1, prev)
    else if Absolute(FullName(cs[k], name)) && k <= prev then
      if k < prev then Research(env, cs, cwd, name, k + 1, prev) else Normal(k)
    else if env.regular(cwd, FullName(cs[k], name)) then Normal(k)
    else Research(env, cs, cwd, name, k + 1, prev)
  }

  function Prev(e: Option<Entry>, loc: int): int {
    if e.None? then -1 else if e.value.found.Normal? then e.value.found.index else loc
  }

  /** find_command(). */
  function FindCommand<D(!new)>(env: Env<D>, s: Cache<D>, name: string): (Cache<D>, Found) {
    if '/' in name then (s, Normal(0))
    else
      var e := if name in s.table then Some(s.table[name]) else None;
      if e.Some? && !e.value.rehash then (s, e.value.found)
      else
        var cs := Split(s.path);
        var loc := Loc(s.path);
        var f := if loc < 0 && name in env.builtins then IsBuiltin
                 else Research(env, cs, s.cwd, name, 0, Prev(e, loc));
        (s.(table := if f == NotFound then s.table - {name} else s.table[name := Entry(f, false)]), f)
  }

  /** hashcd(), and the cd itself. */
  function ChangeDir<D>(s: Cache<D>, d: D): Cache<D> {
    var loc := Loc(s.path);
    s.(cwd := d,
       table := map name | name in s.table ::
         var e := s.table[name];
         if e.found.Normal? || (e.found == IsBuiltin && loc >= 0) then e.(rehash := true) else e)
  }

  // ------------------------------------------------------------- it stays right

  /** What the shortcut skips could not have been found, and what it takes for granted is
      still there. */
  lemma {:induction false} ResearchIsSearch<D(!new)>(env: Env<D>, cs: seq<string>, cwd: D, d: D, name: string, k: nat,
                                                     prev: int)
    requires EnvOk(env) && k <= |cs|
    requires forall j :: 0 <= j < |cs| && j < prev ==> !Provides(env, d, cs[j], name)
    requires 0 <= prev < |cs| && KindOf(cs[prev]) == Plain ==> Provides(env, d, cs[prev], name)
    ensures Research(env, cs, cwd, name, k, prev) == Search(env, cs, cwd, name, k)
    decreases |cs| - k
  {
    if k < |cs| {
      ResearchIsSearch(env, cs, cwd, d, name, k + 1, prev);
      var f := FullName(cs[k], name);
      assert Absolute(f) ==> env.regular(d, f) == env.regular(cwd, f);
    }
  }

  /** Where a search ends says what it passed. */
  lemma {:induction false} SearchPassed<D(!new)>(env: Env<D>, cs: seq<string>, cwd: D, name: string, k: nat)
    requires k <= |cs|
    ensures var f := Search(env, cs, cwd, name, k);
            && (f.Normal? ==> k <= f.index < |cs| && Provides(env, cwd, cs[f.index], name))
            && (f.Normal? ==> forall j :: k <= j < f.index ==> !Provides(env, cwd, cs[j], name))
            && (f == IsBuiltin ==> name in env.builtins && BuiltinLoc(cs, k) >= 0)
            && (f == IsBuiltin ==> forall j :: k <= j < BuiltinLoc(cs, k) ==> !Provides(env, cwd, cs[j], name))
    decreases |cs| - k
  {
    if k < |cs| { SearchPassed(env, cs, cwd, name, k + 1); }
  }

  /** The parts of a string, with colons between them again. */
  function Join(cs: seq<string>): string
    requires |cs| >= 1
  {
    if |cs| == 1 then cs[0] else cs[0] + ":" + Join(cs[1..])
  }

  /** Split is undone by Join, and no part has a colon. */
  lemma {:induction false} SplitJoin(path: string)
    ensures Join(Split(path)) == path
    ensures forall k :: 0 <= k < |Split(path)| ==> ':' !in Split(path)[k]
  {
    if path != "" {
      var rest := Split(path[1..]);
      SplitJoin(path[1..]);
      if path[0] == ':' {
        assert ([""] + rest)[1..] == rest;
      } else {
        var cs := [[path[0]] + rest[0]] + rest[1..];
        assert cs[1..] == rest[1..];
        assert path == [path[0]] + path[1..];
      }
    }
  }

  /** Component k is where a search for name stops. */
  predicate StopsAt<D(!new)>(env: Env<D>, cs: seq<string>, cwd: D, name: string, k: nat)
    requires k < |cs|
  {
    Provides(env, cwd, cs[k], name) || (KindOf(cs[k]) == Builtin && name in env.builtins)
  }

  lemma {:induction false} SearchExact<D(!new)>(env: Env<D>, cs: seq<string>, cwd: D, name: string, k: nat, n: nat)
    requires k <= n <= |cs| && forall j :: k <= j < n ==> !StopsAt(env, cs, cwd, name, j)
    requires n < |cs| ==> StopsAt(env, cs, cwd, name, n)
    ensures Search(env, cs, cwd, name, k) ==
              if n == |cs| then NotFound else if KindOf(cs[n]) == Builtin then IsBuiltin else Normal(n)
    decreases n - k
  {
    if k < n {
      assert !StopsAt(env, cs, cwd, name, k);
      SearchExact(env, cs, cwd, name, k + 1, n);
    }
  }

  /** What a fresh search finds: a builtin before anything else if no component is for
      builtins; otherwise what the first component has that has anything, and nothing if none
      has. */
  lemma FreshExact<D(!new)>(env: Env<D>, path: string, cwd: D, name: string, n: nat)
    requires n <= |Split(path)| && forall j :: 0 <= j < n ==> !StopsAt(env, Split(path), cwd, name, j)
    requires n < |Split(path)| ==> StopsAt(env, Split(path), cwd, name, n)
    ensures Fresh(env, path, cwd, name) ==
              if name in env.builtins && (forall j :: 0 <= j < |Split(path)| ==> !HasBuiltin(Split(path)[j]))
              then IsBuiltin
              else if n == |Split(path)| then NotFound
              else if KindOf(Split(path)[n]) == Builtin then IsBuiltin else Normal(n)
  {
    SearchExact(env, Split(path), cwd, name, 0, n);
    FirstHasExact(Split(path), 0);
  }

  lemma {:induction false} FirstHasExact(cs: seq<string>, k: nat)
    requires k <= |cs|
    ensures FirstHas(cs, k) < 0 <==> forall j :: k <= j < |cs| ==> !HasBuiltin(cs[j])
    ensures FirstHas(cs, k) >= 0 ==>
              HasBuiltin(cs[FirstHas(cs, k)]) && forall j :: k <= j < FirstHas(cs, k) ==> !HasBuiltin(cs[j])
    decreases |cs| - k
  {
    if k < |cs| { FirstHasExact(cs, k + 1); }
  }

  /** find_command finds what a fresh search would, and leaves the table right. */
  lemma FindIsFresh<D(!new)>(env: Env<D>, s: Cache<D>, name: string)
    requires EnvOk(env) && Right(env, s)
    ensures Right(env, FindCommand(env, s, name).0)
    ensures '/' !in name ==> FindCommand(env, s, name).1 == Fresh(env, s.path, s.cwd, name)
  {
    if '/' in name { return; }
    var cs := Split(s.path);
    var loc := Loc(s.path);
    FirstHasFirst(cs, 0);
    var e := if name in s.table then Some(s.table[name]) else None;
    if e.Some? { assert EntryRight(env, s, name); }
    if !(e.Some? && !e.value.rehash) {
      var prev := Prev(e, loc);
      if e.Some? {
        var d :| Fresh(env, s.path, d, name) == e.value.found;
        SearchPassed(env, cs, d, name, 0);
        if !(loc < 0 && name in env.builtins) { ResearchIsSearch(env, cs, s.cwd, d, name, 0, prev); }
      } else {
        ResearchIsSearch(env, cs, s.cwd, s.cwd, name, 0, -1);
      }
      var t := FindCommand(env, s, name).0;
      forall n | n in t.table ensures EntryRight(env, t, n) {
        if n != name { assert EntryRight(env, s, n); }
      }
    }
  }

  lemma ChangeDirRight<D(!new)>(env: Env<D>, s: Cache<D>, d: D)
    requires Right(env, s)
    ensures Right(env, ChangeDir(s, d))
  {
    var t := ChangeDir(s, d);
    forall n | n in t.table ensures EntryRight(env, t, n) {
      assert EntryRight(env, s, n);
      assert !s.table[n].rehash ==> Fresh(env, s.path, s.cwd, n) == s.table[n].found;
      SearchPassed(env, Split(s.path), s.cwd, n, 0);
      FirstHasFirst(Split(s.path), 0);
    }
  }

  // ------------------------------------------------------------ changes of PATH

  /** The index of the first component that differs, as far as changepath() can tell, or None
      if the paths are equal. */
  function FirstChange(was: string, now: string): (r: Option<nat>)
    ensures r.None? <==> was == now
  {
    if was == now then None
    else if was == "" then Some(if now[0] == ':' then 1 else 0)
    else if now == "" then Some(if was[0] == ':' then 1 else 0)
    else if was[0] != now[0] then Some(0)
    else
      var r := FirstChange(was[1..], now[1..]);
      if r.Some? && was[0] == ':' then Some(r.value + 1) else r
  }

  const NO_CHANGE: nat := 9999

  /** Components below the first change are the same in both paths. */
  lemma {:induction false} SameBelow(was: string, now: string)
    ensures var f := FirstChange(was, now);
            f.Some? ==> f.value <= |Split(was)| && f.value <= |Split(now)|
                        && Split(was)[..f.value] == Split(now)[..f.value]
  {
    if was != "" && now != "" && was != now && was[0] == now[0] {
      SameBelow(was[1..], now[1..]);
      var cs, ds, es, fs := Split(was), Split(now), Split(was[1..]), Split(now[1..]);
      var g := FirstChange(was[1..], now[1..]);
      if g.Some? && was[0] == ':' {
        assert cs == [""] + es && ds == [""] + fs;
        assert cs[..g.value + 1] == [""] + es[..g.value] && ds[..g.value + 1] == [""] + fs[..g.value];
      } else if g.Some? && g.value > 0 {
        assert es[0] == es[..g.value][0] && fs[0] == fs[..g.value][0];
        assert es[1..g.value] == es[..g.value][1..] && fs[1..g.value] == fs[..g.value][1..];
        assert cs[..g.value] == [[was[0]] + es[0]] + es[1..g.value];
        assert ds[..g.value] == [[was[0]] + fs[0]] + fs[1..g.value];
      }
    }
  }

  /** The bound changepath() passes to clearcmdentry(), and the builtinloc it has by then. */
  function Bounds(was: string, now: string): (int, int) {
    var loc, bltin := Loc(was), Loc(now);
    var f := FirstChange(was, now);
    var loc' := if loc < 0 && bltin >= 0 then bltin else loc;
    (if loc' >= 0 && bltin < 0 then 0 else if f.Some? then f.value else NO_CHANGE, loc')
  }

  /** clearcmdentry() drops the entry. */
  predicate Dropped(e: Entry, first: int, loc: int) {
    (e.found.Normal? && e.found.index >= first) || (e.found == IsBuiltin && loc >= first)
  }

  /** changepath(), and the assignment to PATH. */
  function ChangePath<D>(s: Cache<D>, now: string): Cache<D> {
    var (first, loc) := Bounds(s.path, now);
    s.(path := now, table := map name | name in s.table && !Dropped(s.table[name], first, loc) :: s.table[name])
  }

  /** A search that ends before the paths differ ends the same way in both. */
  lemma {:induction false} SearchSame<D(!new)>(env: Env<D>, cs: seq<string>, ds: seq<string>, cwd: D, name: string,
                                               k: nat, m: nat)
    requires k <= m <= |cs| && m <= |ds| && cs[..m] == ds[..m]
    ensures var f := Search(env, cs, cwd, name, k);
            f.Normal? && f.index < m ==> Search(env, ds, cwd, name, k) == f
    ensures var f := Search(env, cs, cwd, name, k);
            f == IsBuiltin && 0 <= BuiltinLoc(cs, k) < m ==> Search(env, ds, cwd, name, k) == f
    ensures 0 <= FirstHas(cs, k) < m ==> FirstHas(ds, k) == FirstHas(cs, k)
    ensures BuiltinLoc(cs, k) < m || (forall j :: k <= j < m ==> KindOf(ds[j]) != Builtin)
    decreases m - k
  {
    SearchPassed(env, cs, cwd, name, k);
    if k < m {
      assert cs[k] == cs[..m][k] == ds[k];
      SearchSame(env, cs, ds, cwd, name, k + 1, m);
    }
  }

  /** The directory of c is that of one of the first n components. */
  predicate Tried(cs: seq<string>, n: int, c: string) {
    exists m :: 0 <= m < |cs| && m < n && KindOf(cs[m]) == Plain && cs[m][..OptionAt(cs[m])] == c[..OptionAt(c)]
  }

  /** The change of PATH that clearcmdentry() can get wrong is one after builtinloc and not
      after the component that the search takes for the builtins.  It is harmless if the
      search still gets to the builtins, past no directory that is new to it. */
  predicate Safe(was: string, now: string) {
    var cs, ds, first := Split(was), Split(now), Bounds(was, now).0;
    var j, k := BuiltinLoc(cs, 0), BuiltinLoc(ds, 0);
    0 <= Loc(was) < first <= j && Loc(now) >= 0 ==>
      k >= 0 && forall n :: first <= n < k && KindOf(ds[n]) == Plain ==> Tried(cs, j, ds[n])
  }

  lemma {:induction false} SearchReaches<D(!new)>(env: Env<D>, cs: seq<string>, cwd: D, name: string, k: nat)
    requires k <= |cs| && BuiltinLoc(cs, k) >= 0 && name in env.builtins
    requires forall n :: k <= n < BuiltinLoc(cs, k) ==> !Provides(env, cwd, cs[n], name)
    ensures Search(env, cs, cwd, name, k) == IsBuiltin
    decreases |cs| - k
  {
    if KindOf(cs[k]) != Builtin { SearchReaches(env, cs, cwd, name, k + 1); }
  }

  /** An entry that survives a safe change is as right in the new path as it was in the old
      one. */
  lemma SurvivorRight<D(!new)>(env: Env<D>, was: string, now: string, d: D, name: string, e: Entry)
    requires Fresh(env, was, d, name) == e.found && e.found != NotFound && Safe(was, now)
    requires !Dropped(e, Bounds(was, now).0, Bounds(was, now).1)
    ensures Fresh(env, now, d, name) == e.found
  {
    if was != now {
      SameBelow(was, now);
      var cs, ds, m := Split(was), Split(now), FirstChange(was, now).value;
      SearchSame(env, cs, ds, d, name, 0, m);
      SearchSame(env, ds, cs, d, name, 0, m);
      SearchPassed(env, cs, d, name, 0);
      FirstHasFirst(cs, 0);
      FirstHasFirst(ds, 0);
      if e.found == IsBuiltin && 0 <= Loc(was) < m <= BuiltinLoc(cs, 0) && Loc(now) >= 0 {
        BuiltinsStillReached(env, was, now, d, name);
      }
    }
  }

  lemma BuiltinsStillReached<D(!new)>(env: Env<D>, was: string, now: string, d: D, name: string)
    requires was != now && Safe(was, now) && Search(env, Split(was), d, name, 0) == IsBuiltin
    requires 0 <= Loc(was) < FirstChange(was, now).value <= BuiltinLoc(Split(was), 0) && Loc(now) >= 0
    ensures Search(env, Split(now), d, name, 0) == IsBuiltin
  {
    var cs, ds, m := Split(was), Split(now), FirstChange(was, now).value;
    SameBelow(was, now);
    SearchPassed(env, cs, d, name, 0);
    forall n | 0 <= n < BuiltinLoc(ds, 0) ensures !Provides(env, d, ds[n], name) {
      if n < m {
        assert ds[n] == ds[..m][n] == cs[n];
      } else if KindOf(ds[n]) == Plain {
        assert Tried(cs, BuiltinLoc(cs, 0), ds[n]);
        var t :| 0 <= t < |cs| && t < BuiltinLoc(cs, 0) && KindOf(cs[t]) == Plain
          && cs[t][..OptionAt(cs[t])] == ds[n][..OptionAt(ds[n])];
        assert !Provides(env, d, cs[t], name);
      }
    }
    SearchReaches(env, ds, d, name, 0);
  }

  lemma ChangePathRight<D(!new)>(env: Env<D>, s: Cache<D>, now: string)
    requires Right(env, s) && Safe(s.path, now)
    ensures Right(env, ChangePath(s, now))
  {
    var t := ChangePath(s, now);
    forall n | n in t.table ensures EntryRight(env, t, n) {
      assert EntryRight(env, s, n);
      var e := s.table[n];
      if e.rehash {
        var d :| Fresh(env, s.path, d, n) == e.found;
        SurvivorRight(env, s.path, now, d, n, e);
      } else {
        SurvivorRight(env, s.path, now, s.cwd, n, e);
      }
    }
  }

  /** Whatever the files and the builtins, a table that is right stays right. */
  ghost predicate KeepsRight(was: string, now: string) {
    forall env: Env<bool>, s: Cache<bool> ::
      EnvOk(env) && Right(env, s) && s.path == was ==> Right(env, ChangePath(s, now))
  }

  /** changepath() keeps the table right exactly if the change is safe. */
  lemma ChangePathExact(was: string, now: string)
    ensures KeepsRight(was, now) <==> Safe(was, now)
  {
    if Safe(was, now) {
      forall env: Env<bool>, s: Cache<bool> | EnvOk(env) && Right(env, s) && s.path == was
        ensures Right(env, ChangePath(s, now))
      {
        ChangePathRight(env, s, now);
      }
    } else {
      var env, s := UnsafeChange(was, now);
      assert EnvOk(env) && Right(env, s) && s.path == was && !Right(env, ChangePath(s, now));
    }
  }

  /** After an unsafe change a builtin is found that is no longer there to be found. */
  lemma UnsafeChange(was: string, now: string) returns (env: Env<bool>, s: Cache<bool>)
    requires !Safe(was, now)
    ensures EnvOk(env) && Right(env, s) && s.path == was && !Right(env, ChangePath(s, now))
  {
    var cs, ds, name := Split(was), Split(now), "b";
    var j, k := BuiltinLoc(cs, 0), BuiltinLoc(ds, 0);
    var file: Option<string> := None;
    if k >= 0 {
      var n :| Bounds(was, now).0 <= n < k && KindOf(ds[n]) == Plain && !Tried(cs, j, ds[n]);
      file := Some(FullName(ds[n], name));
      assert Provides(Env({name}, (d: bool, f: string) => Some(f) == file), true, ds[n], name);
    }
    env := Env({name}, (d: bool, f: string) => Some(f) == file);
    s := Cache(was, true, map[name := Entry(IsBuiltin, false)]);
    forall m | 0 <= m < j ensures !Provides(env, true, cs[m], name) {
      if KindOf(cs[m]) == Plain && Some(FullName(cs[m], name)) == file {
        var n :| Bounds(was, now).0 <= n < k && KindOf(ds[n]) == Plain && !Tried(cs, j, ds[n])
          && FullName(ds[n], name) == file.value;
        SameDir(cs[m], ds[n], name);
        assert Tried(cs, j, ds[n]);
      }
    }
    SearchReaches(env, cs, true, name, 0);
    assert EntryRight(env, s, name);
    SearchPassed(env, ds, true, name, 0);
    assert !EntryRight(env, ChangePath(s, now), name);
  }

  lemma SameDir(c: string, d: string, name: string)
    requires FullName(c, name) == FullName(d, name)
    ensures c[..OptionAt(c)] == d[..OptionAt(d)]
  {
    var x, y := c[..OptionAt(c)], d[..OptionAt(d)];
    assert |FullName(c, name)| == if x == "" then |name| else |x| + 1 + |name|;
    assert x == "" || x == FullName(c, name)[..|x|];
    assert y == "" || y == FullName(d, name)[..|y|];
  }

  /** Every change from a path is safe if each of its components that has a %builtin among
      its options has it first; so is any with at most one option in each component. */
  lemma FirstOptionsSafe(was: string, now: string)
    requires forall c :: c in Split(was) && HasBuiltin(c) ==> KindOf(c) == Builtin
    ensures Safe(was, now)
  {
    FirstLoc(Split(was), 0);
  }

  lemma {:induction false} FirstLoc(cs: seq<string>, k: nat)
    requires k <= |cs| && forall c :: c in cs && HasBuiltin(c) ==> KindOf(c) == Builtin
    ensures FirstHas(cs, k) == BuiltinLoc(cs, k)
    decreases |cs| - k
  {
    if k < |cs| {
      assert cs[k] in cs;
      HasOption(cs[k]);
      FirstLoc(cs, k + 1);
    }
  }

  // ------------------------------------------------------------------ whole runs

  datatype Op<D> = Find(name: string) | Cd(dir: D) | SetPath(path: string)

  function Do<D(!new)>(env: Env<D>, s: Cache<D>, op: Op<D>): Cache<D> {
    match op
    case Find(name) => FindCommand(env, s, name).0
    case Cd(d) => ChangeDir(s, d)
    case SetPath(p) => ChangePath(s, p)
  }

  function DoAll<D(!new)>(env: Env<D>, s: Cache<D>, ops: seq<Op<D>>): Cache<D> {
    if ops == [] then s else Do(env, DoAll(env, s, ops[..|ops| - 1]), ops[|ops| - 1])
  }

  /** The PATH that the operations leave. */
  function PathAfter<D>(path: string, ops: seq<Op<D>>): string {
    if ops == [] then path
    else if ops[|ops| - 1].SetPath? then ops[|ops| - 1].path
    else PathAfter(path, ops[..|ops| - 1])
  }

  /** Every change of PATH on the way is safe. */
  ghost predicate SafeChanges<D>(path: string, ops: seq<Op<D>>) {
    forall i :: 0 <= i < |ops| && ops[i].SetPath? ==> Safe(PathAfter(path, ops[..i]), ops[i].path)
  }

  /** After any number of lookups, cds and safe changes of PATH, a lookup finds what a search
      from scratch would find in the PATH and the directory of that moment. */
  lemma {:induction false} AlwaysFresh<D(!new)>(env: Env<D>, path: string, cwd: D, ops: seq<Op<D>>, name: string)
    requires EnvOk(env) && '/' !in name && SafeChanges(path, ops)
    ensures var s := DoAll(env, Cache(path, cwd, map[]), ops);
            && s.path == PathAfter(path, ops) && Right(env, s)
            && FindCommand(env, s, name).1 == Fresh(env, s.path, s.cwd, name)
    decreases |ops|
  {
    var s0 := Cache(path, cwd, map[]);
    if ops != [] {
      var before := ops[..|ops| - 1];
      assert forall i :: 0 <= i < |before| ==> before[i] == ops[i] && before[..i] == ops[..i];
      AlwaysFresh(env, path, cwd, before, name);
      var s := DoAll(env, s0, before);
      match ops[|ops| - 1] {
        case Find(n) => FindIsFresh(env, s, n);
        case Cd(d) => ChangeDirRight(env, s, d);
        case SetPath(p) => ChangePathRight(env, s, p);
      }
    }
    FindIsFresh(env, DoAll(env, s0, ops), name);
  }
}
