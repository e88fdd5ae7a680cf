/** The command table as commands/ash/exec.c keeps it: 31 hash chains changed in place, and
    PATH walked character by character. */
module CommandTable {
  import opened CommandCache

  const CMDTABLESIZE: nat := 31

  // -------------------------------------------------------------- path as a string

  /** Where the first component of a path ends. */
  function ColonAt(path: string): (k: nat)
    ensures k <= |path| && (k < |path| ==> path[k] == ':') && forall j :: 0 <= j < k ==> path[j] != ':'
  {
    if path == "" || path[0] == ':' then 0 else 1 + ColonAt(path[1..])
  }

  lemma {:induction false} SplitFirst(path: string)
    ensures var k := ColonAt(path);
            && Split(path)[0] == path[..k]
            && (k == |path| ==> |Split(path)| == 1)
            && (k < |path| ==> Split(path)[1..] == Split(path[k + 1..]))
  {
    if path != "" && path[0] != ':' {
      SplitFirst(path[1..]);
      var k := ColonAt(path);
      assert k < |path| ==> path[1..][k..] == path[k + 1..];
    }
  }

  /** What changepath() finds when it looks for "%builtin" as it goes. */
  function BltinScan(s: string, index: nat): int {
    if s == "" then -1
    else if s[0] == '%' && ForBuiltins(s[1..]) then index
    else BltinScan(s[1..], if s[0] == ':' then index + 1 else index)
  }

  /** "builtin" has no colon in it. */
  lemma BuiltinPrefix(s: string)
    ensures ForBuiltins(s) <==> ForBuiltins(Split(s)[0])
  {
    SplitFirst(s);
    var k, b := ColonAt(s), "builtin";
    if b <= s {
      assert forall j :: 0 <= j < 7 ==> s[j] == b[j];
      assert b[0] == 'b' && b[1] == 'u' && b[2] == 'i' && b[3] == 'l' && b[4] == 't' && b[5] == 'i' && b[6] == 'n';
      assert k >= 7;
    }
  }

  lemma {:induction false} HasShift(c: string, ds: seq<string>, k: nat)
    requires k <= |ds|
    ensures var r := FirstHas(ds, k); FirstHas([c] + ds, k + 1) == if r < 0 then -1 else r + 1
    decreases |ds| - k
  {
    if k < |ds| { HasShift(c, ds, k + 1); }
  }

  /** An unsafe change: c has a %builtin, but not as its first option, and the component for
      builtins that followed it goes away. */
  lemma UnsafeFamily(c: string)
    requires ':' !in c && HasBuiltin(c) && KindOf(c) != Builtin
    ensures !Safe(c + ":%builtin", c)
  {
    var b := "%builtin";
    var was := c + ":%builtin";
    assert was == c + (":" + b);
    TwoComponents(c, b);
    OneComponent(c);
    ChangeAfter(c, ":" + b);
    KindOfBuiltin();
    hide Split, KindOf, HasBuiltin, FirstChange;
    assert FirstHas([c, b], 0) == 0 && FirstHas([c], 0) == 0;
    assert BuiltinLoc([c], 0) == -1 && BuiltinLoc([c, b], 0) == 1;
  }

  lemma KindOfBuiltin()
    ensures KindOf("%builtin") == Builtin
  {
    assert "%builtin"[1..] == "builtin";
  }

  lemma OneComponent(c: string)
    requires ':' !in c
    ensures Split(c) == [c]
  {
    hide Split;
    SplitFirst(c);
    NoColon(c);
    assert c[..|c|] == c;
  }

  lemma TwoComponents(c: string, d: string)
    requires ':' !in c && ':' !in d
    ensures Split(c + (":" + d)) == [c, d]
  {
    hide Split;
    var s := c + (":" + d);
    SplitFirst(s);
    ColonAfter(c, ":" + d);
    OneComponent(d);
    assert s[..|c|] == c && s[|c| + 1..] == d;
    var r := Split(s);
    assert r == [r[0]] + r[1..];
  }

  lemma {:induction false} ColonAfter(c: string, t: string)
    requires ':' !in c && t != "" && t[0] == ':'
    ensures ColonAt(c + t) == |c|
  {
    if c == "" {
      assert c + t == t;
    } else {
      assert (c + t)[1..] == c[1..] + t;
      ColonAfter(c[1..], t);
    }
  }

  lemma {:induction false} ChangeAfter(c: string, t: string)
    requires ':' !in c && t != "" && t[0] == ':'
    ensures FirstChange(c + t, c) == Some(1)
  {
    if c == "" {
      assert c + t == t;
    } else {
      assert (c + t)[1..] == c[1..] + t;
      ChangeAfter(c[1..], t);
    }
  }

  lemma {:induction false} NoColon(s: string)
    requires ':' !in s
    ensures ColonAt(s) == |s|
  {
  }

  /** Going over the path in one pass, changepath() finds the first component that has a
      %builtin among its options. */
  lemma {:induction false} ScanIsFirst(s: string, index: nat)
    ensures var r := Loc(s); BltinScan(s, index) == if r < 0 then -1 else index + r
  {
    if s != "" {
      var cs, ds := Split(s), Split(s[1..]);
      if s[0] == ':' {
        ScanIsFirst(s[1..], index + 1);
        HasShift("", ds, 0);
      } else {
        assert cs[0] == [s[0]] + ds[0] && cs[0][1..] == ds[0] && cs == [cs[0]] + ds[1..] && ds == [ds[0]] + ds[1..];
        BuiltinPrefix(s[1..]);
        ScanIsFirst(s[1..], index);
        HasShift(cs[0], ds[1..], 0);
        HasShift(ds[0], ds[1..], 0);
      }
    }
  }

  // -------------------------------------------------------------------- the chains

  datatype Cell = Cell(name: string, entry: Entry)

  function Sum(s: string): nat { if s == "" then 0 else s[0] as nat + Sum(s[1..]) }

  /** cmdlookup()'s hash function. */
  function Hash(name: string): (h: nat)
    ensures h < CMDTABLESIZE
  {
    ((if name == "" then 0 else 16 * (name[0] as nat)) + Sum(name)) % 0x8000 % CMDTABLESIZE
  }

  ghost predicate InChain(chain: seq<Cell>, name: string) {
    exists j :: 0 <= j < |chain| && chain[j].name == name
  }

  /** Chain h holds, once each, the entries of the table whose names hash to h. */
  ghost predicate ChainOk(chain: seq<Cell>, h: nat, table: map<string, Entry>) {
    && (forall j :: 0 <= j < |chain| ==>
          Hash(chain[j].name) == h && chain[j].name in table && table[chain[j].name] == chain[j].entry)
    && (forall i, j :: 0 <= i < j < |chain| ==> chain[i].name != chain[j].name)
    && (forall name :: name in table && Hash(name) == h ==> InChain(chain, name))
  }

  ghost predicate ChainsOk(chains: seq<seq<Cell>>, table: map<string, Entry>) {
    |chains| == CMDTABLESIZE && forall h :: 0 <= h < CMDTABLESIZE ==> ChainOk(chains[h], h, table)
  }

  lemma PutCell(chains: seq<seq<Cell>>, table: map<string, Entry>, name: string, j: nat, e: Entry)
    requires ChainsOk(chains, table)
    requires var chain := chains[Hash(name)];
             if name in table then j < |chain| && chain[j].name == name else j == |chain|
    ensures var h := Hash(name);
            var chain := if name in table then chains[h][j := Cell(name, e)] else chains[h] + [Cell(name, e)];
            ChainsOk(chains[h := chain], table[name := e])
  {
    hide Hash;
    var h := Hash(name);
    var t := table[name := e];
    assert ChainOk(chains[h], h, table);
    PutInChain(chains[h], h, table, name, j, e);
    forall g | 0 <= g < CMDTABLESIZE && g != h ensures ChainOk(chains[g], g, t) {
      assert ChainOk(chains[g], g, table);
    }
  }

  lemma PutInChain(chain: seq<Cell>, h: nat, table: map<string, Entry>, name: string, j: nat, e: Entry)
    requires ChainOk(chain, h, table) && Hash(name) == h
    requires if name in table then j < |chain| && chain[j].name == name else j == |chain|
    ensures ChainOk(if name in table then chain[j := Cell(name, e)] else chain + [Cell(name, e)], h, table[name := e])
  {
    hide Hash;
    var t := table[name := e];
    var r := if name in table then chain[j := Cell(name, e)] else chain + [Cell(name, e)];
    assert forall i :: 0 <= i < |chain| ==> r[i].name == chain[i].name;
    assert r[j].name == name;
    forall n | n in t && Hash(n) == h ensures InChain(r, n) {
      if n != name {
        assert InChain(chain, n);
        var i :| 0 <= i < |chain| && chain[i].name == n;
        assert r[i].name == n;
      }
    }
  }

  lemma StillInChain(chain: seq<Cell>, j: nat, n: string)
    requires j < |chain| && InChain(chain, n) && n != chain[j].name
    ensures InChain(chain[..j] + chain[j + 1..], n)
  {
    var i :| 0 <= i < |chain| && chain[i].name == n;
    assert (chain[..j] + chain[j + 1..])[if i < j then i else i - 1] == chain[i];
  }

  lemma DropCell(chains: seq<seq<Cell>>, table: map<string, Entry>, h: nat, j: nat)
    requires ChainsOk(chains, table) && h < CMDTABLESIZE && j < |chains[h]|
    ensures ChainsOk(chains[h := chains[h][..j] + chains[h][j + 1..]], table - {chains[h][j].name})
  {
    var name := chains[h][j].name;
    var t, chain := table - {name}, chains[h][..j] + chains[h][j + 1..];
    var new_ := chains[h := chain];
    assert ChainOk(chains[h], h, table);
    assert forall i :: 0 <= i < |chain| ==> chain[i] == chains[h][if i < j then i else i + 1];
    forall g | 0 <= g < CMDTABLESIZE ensures ChainOk(new_[g], g, t) {
      assert ChainOk(chains[g], g, table);
      forall n | n in t && Hash(n) == g ensures InChain(new_[g], n) {
        assert InChain(chains[g], n);
        if g == h {
          StillInChain(chains[g], j, n);
        }
      }
    }
  }

  class CmdTable<!D(!new)> {
    const env: Env<D>
    var chains: seq<seq<Cell>>
    var path: string
    var cwd: D
    var builtinloc: int
    ghost var table: map<string, Entry>

    ghost predicate Valid()
      reads this
    {
      ChainsOk(chains, table) && builtinloc == Loc(path)
    }

    ghost function Abs(): Cache<D>
      reads this
    {
      Cache(path, cwd, table)
    }

    constructor (env: Env<D>, path: string, cwd: D)
      ensures Valid() && this.env == env && Abs() == Cache(path, cwd, map[])
    {
      this.env, this.path, this.cwd := env, path, cwd;
      chains := seq(CMDTABLESIZE, h => []);
      table := map[];
      builtinloc := BltinScan(path, 0);
      ScanIsFirst(path, 0);
    }

    /** cmdlookup() without adding: the chain and the place in it. */
    method CmdLookup(name: string) returns (j: nat, found: bool)
      requires Valid()
      ensures found <==> name in table
      ensures if found then j < |chains[Hash(name)]| && chains[Hash(name)][j] == Cell(name, table[name])
              else j == |chains[Hash(name)]|
    {
      var chain := chains[Hash(name)];
      assert ChainOk(chain, Hash(name), table);
      j := 0;
      while j < |chain|
        invariant 0 <= j <= |chain|
        invariant forall i :: 0 <= i < j ==> chain[i].name != name
      {
        if chain[j].name == name {
          return j, true;
        }
        j := j + 1;
      }
      return j, false;
    }

    /** cmdlookup() with adding, and the assignments to the entry it returns. */
    method Put(name: string, e: Entry)
      requires Valid()
      modifies this`chains, this`table
      ensures Valid() && table == old(table)[name := e]
    {
      var j, found := CmdLookup(name);
      PutCell(chains, table, name, j, e);
      var h := Hash(name);
      chains := chains[h := if found then chains[h][j := Cell(name, e)] else chains[h] + [Cell(name, e)]];
      table := table[name := e];
    }

    /** delete_cmd_entry() after a lookup of name. */
    method Delete(name: string)
      requires Valid() && name in table
      modifies this`chains, this`table
      ensures Valid() && table == old(table) - {name}
    {
      var j, found := CmdLookup(name);
      var h := Hash(name);
      DropCell(chains, table, h, j);
      chains := chains[h := chains[h][..j] + chains[h][j + 1..]];
      table := table - {name};
    }

    /** padvance() on what is left of the path: the name to try, whether there was an option,
        what it was, and what is left after that. */
    method PAdvance(rest: string, name: string) returns (fullname: string, kind: Kind, more: Option<string>)
      ensures var cs := Split(rest);
              && fullname == FullName(cs[0], name) && kind == KindOf(cs[0])
              && (more.None? <==> |cs| == 1) && (more.Some? ==> Split(more.value) == cs[1..])
    {
      hide ForBuiltins, Split, KindOf, FullName;
      SplitFirst(rest);
      var p := 0;
      while p < |rest| && rest[p] != ':' && rest[p] != '%'
        invariant 0 <= p <= ColonAt(rest) && forall j :: 0 <= j < p ==> rest[j] != '%'
      {
        p := p + 1;
      }
      FirstComponent(rest, p, name);
      fullname := if p == 0 then name else rest[..p] + "/" + name;
      kind := Plain;
      if p < |rest| && rest[p] == '%' {
        p := p + 1;
        kind := if ForBuiltins(rest[p..]) then Builtin else Ignored;
        while p < |rest| && rest[p] != ':'
          invariant 0 <= p <= ColonAt(rest)
        {
          p := p + 1;
        }
      }
      more := if p < |rest| then Some(rest[p + 1..]) else None;
    }

    /** find_command(), for a name without a slash. */
    method FindCommand(name: string) returns (found: Found)
      requires Valid()
      modifies this`chains, this`table
      ensures Valid() && (Abs(), found) == CommandCache.FindCommand(env, old(Abs()), name)
    {
      if '/' in name {
        return Normal(0);
      }
      var j, known := CmdLookup(name);
      var prev := -1;
      if known {
        var e := chains[Hash(name)][j].entry;
        if !e.rehash {
          return e.found;
        }
        prev := if e.found.Normal? then e.found.index else builtinloc;
      }
      if builtinloc < 0 && name in env.builtins {
        Put(name, Entry(IsBuiltin, false));
        return IsBuiltin;
      }
      found := SearchPath(name, prev);
      if found != NotFound {
        Put(name, Entry(found, false));
      } else if known {
        Delete(name);
      } else {
        assert table - {name} == table;
      }
    }

    /** The loop of find_command() along the path. */
    method SearchPath(name: string, prev: int) returns (found: Found)
      ensures found == Research(env, Split(path), cwd, name, 0, prev)
    {
      ghost var cs := Split(path);
      var index, rest := -1, Some(path);
      assert cs[0..] == cs;
      while rest.Some?
        invariant -1 <= index < |cs|
        invariant rest.Some? ==> index + 1 < |cs| && Split(rest.value) == cs[index + 1..]
        invariant rest.None? ==> index + 1 == |cs|
        invariant Research(env, cs, cwd, name, 0, prev) == Research(env, cs, cwd, name, index + 1, prev)
        decreases |cs| - index
      {
        var fullname, kind, more := PAdvance(rest.value, name);
        index := index + 1;
        assert cs[index..][0] == cs[index] && cs[index..][1..] == cs[index + 1..];
        rest := more;
        if kind == Builtin && name in env.builtins {
          return IsBuiltin;
        }
        if kind == Plain {
          if Absolute(fullname) && index <= prev {
            if index == prev {
              return Normal(index);
            }
          } else if env.regular(cwd, fullname) {
            return Normal(index);
          }
        }
      }
      return NotFound;
    }

    /** hashcd(), on the way to the directory d. */
    method ChangeDir(d: D)
      requires Valid()
      modifies this`chains, this`table, this`cwd
      ensures Valid() && Abs() == CommandCache.ChangeDir(old(Abs()), d)
    {
      var all := builtinloc >= 0;
      var h := 0;
      while h < CMDTABLESIZE
        invariant 0 <= h <= CMDTABLESIZE && |chains| == CMDTABLESIZE
        invariant forall g :: 0 <= g < h ==> chains[g] == MarkedChain(old(chains)[g], all)
        invariant forall g :: h <= g < CMDTABLESIZE ==> chains[g] == old(chains)[g]
      {
        var j, chain := 0, chains[h];
        while j < |chain|
          invariant 0 <= j <= |chain| == |old(chains)[h]|
          invariant forall i :: 0 <= i < |chain| ==>
                      chain[i] == if i < j then MarkedCell(old(chains)[h][i], all) else old(chains)[h][i]
        {
          var e := chain[j].entry;
          if e.found.Normal? || (e.found == IsBuiltin && builtinloc >= 0) {
            chain := chain[j := chain[j].(entry := e.(rehash := true))];
          }
          j := j + 1;
        }
        assert chain == MarkedChain(old(chains)[h], all);
        chains := chains[h := chain];
        h := h + 1;
      }
      table := map name | name in old(table) :: Marked(old(table)[name], all);
      forall g | 0 <= g < CMDTABLESIZE ensures ChainOk(chains[g], g, table) {
        assert ChainOk(old(chains)[g], g, old(table));
        MarkedOk(old(chains)[g], g, old(table), table, all);
      }
      cwd := d;
    }

    /** clearcmdentry(), with the builtinloc of the moment. */
    method ClearCmdEntry(first: int, loc: int)
      requires ChainsOk(chains, table)
      modifies this`chains, this`table
      ensures ChainsOk(chains, table)
      ensures table == map name | name in old(table) && !Dropped(old(table)[name], first, loc) :: old(table)[name]
    {
      var h := 0;
      while h < CMDTABLESIZE
        invariant 0 <= h <= CMDTABLESIZE && ChainsOk(chains, table)
        invariant Fewer(old(table), table, first, loc)
        invariant forall g, i :: 0 <= g < h && 0 <= i < |chains[g]| ==> !Dropped(chains[g][i].entry, first, loc)
      {
        var j := 0;
        while j < |chains[h]|
          invariant ChainsOk(chains, table) && 0 <= j <= |chains[h]|
          invariant Fewer(old(table), table, first, loc)
          invariant forall g, i :: 0 <= g < h && 0 <= i < |chains[g]| ==> !Dropped(chains[g][i].entry, first, loc)
          invariant forall i :: 0 <= i < j ==> !Dropped(chains[h][i].entry, first, loc)
          decreases |chains[h]| - j
        {
          if Dropped(chains[h][j].entry, first, loc) {
            assert ChainOk(chains[h], h, table);
            DropCell(chains, table, h, j);
            table := table - {chains[h][j].name};
            chains := chains[h := chains[h][..j] + chains[h][j + 1..]];
          } else {
            j := j + 1;
          }
        }
        h := h + 1;
      }
      forall name | name in table ensures !Dropped(table[name], first, loc) {
        var chain := chains[Hash(name)];
        assert ChainOk(chain, Hash(name), table) && InChain(chain, name);
        var i :| 0 <= i < |chain| && chain[i].name == name;
      }
    }

    /** changepath(), and the assignment to PATH. */
    method ChangePath(now: string)
      requires Valid()
      modifies this`chains, this`table, this`path, this`builtinloc
      ensures Valid() && Abs() == CommandCache.ChangePath(old(Abs()), now)
    {
      var firstchange, bltin := Compare(path, now);
      ScanIsFirst(now, 0);
      if builtinloc < 0 && bltin >= 0 {
        builtinloc := bltin;
      }
      if builtinloc >= 0 && bltin < 0 {
        firstchange := 0;
      }
      ClearCmdEntry(firstchange, builtinloc);
      builtinloc := bltin;
      path := now;
    }
  }

  /** changepath()'s walk along the old and the new path, side by side up to the first
      difference. */
  method Compare(was: string, now: string) returns (firstchange: nat, bltin: int)
    ensures firstchange == var f := FirstChange(was, now); if f.Some? then f.value else NO_CHANGE
    ensures bltin == BltinScan(now, 0)
  {
    var n, index, same := 0, 0, true;
    firstchange, bltin := NO_CHANGE, -1;
    assert was[0..] == was && now[0..] == now;
    while true
      invariant 0 <= n <= |now| && (same ==> n <= |was|)
      invariant if same then
                  && firstchange == NO_CHANGE
                  && FirstChange(was, now) == Shift(FirstChange(was[n..], now[n..]), index)
                else FirstChange(was, now) == Some(firstchange)
      invariant BltinScan(now, 0) == if bltin >= 0 then bltin else BltinScan(now[n..], index)
      decreases |now| - n
    {
      if same && ((n == |was|) != (n == |now|) || (n < |was| && n < |now| && was[n] != now[n])) {
        firstchange := index;
        if (n == |was| && n < |now| && now[n] == ':') || (n == |now| && n < |was| && was[n] == ':') {
          firstchange := firstchange + 1;
        }
        same := false;
      }
      if n == |now| {
        break;
      }
      assert now[n..][1..] == now[n + 1..];
      assert same ==> was[n..][1..] == was[n + 1..];
      if now[n] == '%' && bltin < 0 && ForBuiltins(now[n + 1..]) {
        bltin := index;
      }
      if now[n] == ':' {
        index := index + 1;
      }
      n := n + 1;
    }
  }

  function Shift(f: Option<nat>, k: nat): Option<nat> {
    if f.None? then None else Some(f.value + k)
  }

  function Marked(e: Entry, all: bool): Entry {
    if e.found.Normal? || (e.found == IsBuiltin && all) then e.(rehash := true) else e
  }

  function MarkedCell(c: Cell, all: bool): Cell {
    c.(entry := Marked(c.entry, all))
  }

  function MarkedChain(chain: seq<Cell>, all: bool): seq<Cell> {
    seq(|chain|, i requires 0 <= i < |chain| => MarkedCell(chain[i], all))
  }

  lemma MarkedOk(chain: seq<Cell>, h: nat, table: map<string, Entry>, t: map<string, Entry>, all: bool)
    requires ChainOk(chain, h, table) && t == map name | name in table :: Marked(table[name], all)
    ensures ChainOk(MarkedChain(chain, all), h, t)
  {
    hide Hash;
    var m := MarkedChain(chain, all);
    forall n | n in t && Hash(n) == h ensures InChain(m, n) {
      assert InChain(chain, n);
      var i :| 0 <= i < |chain| && chain[i].name == n;
      assert m[i].name == n;
    }
  }

  /** t is what is left of table after dropping some of what is to be dropped. */
  ghost predicate Fewer(table: map<string, Entry>, t: map<string, Entry>, first: int, loc: int) {
    && (forall n :: n in t ==> n in table && t[n] == table[n])
    && (forall n :: n in table && !Dropped(table[n], first, loc) ==> n in t)
  }

  /** The first component, when its directory ends at p. */
  lemma FirstComponent(rest: string, p: nat, name: string)
    requires p <= ColonAt(rest) && (forall j :: 0 <= j < p ==> rest[j] != '%')
    requires (p < |rest| ==> rest[p] == ':' || rest[p] == '%')
    ensures var c := Split(rest)[0];
            && FullName(c, name) == (if p == 0 then name else rest[..p] + "/" + name)
            && KindOf(c) == (if p == |rest| || rest[p] == ':' then Plain
               else if ForBuiltins(rest[p + 1..]) then Builtin else Ignored)
    ensures p < |rest| && rest[p] == '%' ==> p + 1 <= ColonAt(rest)
  {
    hide Split, ForBuiltins, OptionAt, ColonAt, FullName, KindOf;
    DirEnds(rest, p);
    NameInDir(Split(rest)[0], name);
    KindAt(rest, p);
  }

  lemma KindAt(rest: string, p: nat)
    requires p <= ColonAt(rest) && (forall j :: 0 <= j < p ==> rest[j] != '%')
    requires (p < |rest| ==> rest[p] == ':' || rest[p] == '%')
    ensures KindOf(Split(rest)[0]) == if p == |rest| || rest[p] == ':' then Plain
            else if ForBuiltins(rest[p + 1..]) then Builtin else Ignored
    ensures p < |rest| && rest[p] == '%' ==> p + 1 <= ColonAt(rest)
  {
    hide Split, ForBuiltins, OptionAt, ColonAt, KindOf;
    if p < |rest| && rest[p] == '%' {
      NoColonBefore(rest, p);
      KindOfOption(rest, p);
    } else {
      DirEnds(rest, p);
      KindOfPlain(Split(rest)[0]);
    }
  }

  lemma KindOfPlain(c: string)
    requires OptionAt(c) == |c|
    ensures KindOf(c) == Plain
  {
    hide OptionAt;
  }

  lemma KindOfOption(rest: string, p: nat)
    requires p < |rest| && rest[p] == '%' && (forall j :: 0 <= j < p ==> rest[j] != ':' && rest[j] != '%')
    ensures KindOf(Split(rest)[0]) == if ForBuiltins(rest[p + 1..]) then Builtin else Ignored
    ensures p + 1 <= ColonAt(rest)
  {
    hide Split, ForBuiltins, OptionAt, ColonAt;
    OptionPrefix(rest, p + 1);
  }

  lemma NoColonBefore(rest: string, p: nat)
    requires p <= ColonAt(rest)
    ensures forall j :: 0 <= j < p ==> rest[j] != ':'
  {
    hide ColonAt;
  }

  lemma NameInDir(c: string, name: string)
    ensures FullName(c, name) == if OptionAt(c) == 0 then name else c[..OptionAt(c)] + "/" + name
  {
    hide OptionAt;
  }

  lemma DirEnds(rest: string, p: nat)
    requires p <= ColonAt(rest) && (forall j :: 0 <= j < p ==> rest[j] != '%')
    requires (p < |rest| ==> rest[p] == ':' || rest[p] == '%')
    ensures var c := Split(rest)[0];
            OptionAt(c) == p <= |c| && c[..p] == rest[..p] && (p == |c| <==> p == |rest| || rest[p] == ':')
  {
    hide Split, ForBuiltins, OptionAt, ColonAt;
    SplitFirst(rest);
    assert rest[..ColonAt(rest)][..p] == rest[..p];
  }

  lemma OptionPrefix(rest: string, p: nat)
    requires 1 <= p <= |rest| && rest[p - 1] == '%' && (forall j :: 0 <= j < p - 1 ==> rest[j] != ':' && rest[j] != '%')
    ensures var c := Split(rest)[0];
            && OptionAt(c) == p - 1 < |c| && ColonAt(rest) >= p
            && (ForBuiltins(c[p..]) <==> ForBuiltins(rest[p..]))
  {
    hide ForBuiltins, Split;
    SplitFirst(rest);
    SplitFirst(rest[p..]);
    BuiltinPrefix(rest[p..]);
    var k := ColonAt(rest);
    ColonLater(rest, p);
    assert rest[..k][p..] == rest[p..][..k - p];
    OptionIs(rest[..k], p - 1);
  }

  lemma {:induction false} OptionIs(c: string, k: nat)
    requires k < |c| && c[k] == '%' && forall j :: 0 <= j < k ==> c[j] != '%'
    ensures OptionAt(c) == k
  {
    var o := OptionAt(c);
  }

  lemma {:induction false} ColonLater(s: string, p: nat)
    requires p <= |s| && forall j :: 0 <= j < p ==> s[j] != ':'
    ensures ColonAt(s) == p + ColonAt(s[p..])
  {
    if p > 0 {
      ColonLater(s[1..], p - 1);
      assert s[1..][p - 1..] == s[p..];
    } else {
      assert s[0..] == s;
    }
  }
}
