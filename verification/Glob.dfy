/** Shell patterns of ash (commands/ash/expand.c): pmatch with squoted 0, and the four trims
    of subevalvar that are built on it. */
module Glob {

  const CTLESC: char := '\U{0081}'
  const CTLQUOTEMARK: char := '\U{0088}'

  // ----------------------------------------------------------- what patterns mean

  datatype Token = Lit(c: char) | AnyOne | AnyMany

  /** Every CTLESC quotes a character, and there is no bracket expression. */
  predicate WellFormed(p: seq<char>) {
    if p == [] then true
    else if p[0] == CTLESC then |p| >= 2 && WellFormed(p[2..])
    else p[0] != '[' && WellFormed(p[1..])
  }

  function Tokens(p: seq<char>): seq<Token>
    requires WellFormed(p)
  {
    if p == [] then []
    else if p[0] == CTLESC then [Lit(p[1])] + Tokens(p[2..])
    else if p[0] == CTLQUOTEMARK then Tokens(p[1..])
    else [if p[0] == '?' then AnyOne else if p[0] == '*' then AnyMany else Lit(p[0])] + Tokens(p[1..])
  }

  /** The strings a pattern stands for. */
  ghost predicate Matches(ts: seq<Token>, s: seq<char>) {
    if ts == [] then s == []
    else match ts[0]
      case Lit(c) => s != [] && s[0] == c && Matches(ts[1..], s[1..])
      case AnyOne => s != [] && Matches(ts[1..], s[1..])
      case AnyMany => exists k :: 0 <= k <= |s| && Matches(ts[1..], s[k..])
  }

  ghost predicate Accepts(p: seq<char>, s: seq<char>)
    requires WellFormed(p)
  {
    Matches(Tokens(p), s)
  }

  // -------------------------------------------------------------------- pmatch

  /** A C string ends at its first NUL. */
  predicate CString(s: seq<char>) { '\0' !in s }

  function At(s: seq<char>, i: nat): char
    requires i <= |s|
  {
    if i < |s| then s[i] else '\0'
  }

  /** Several stars, with quote marks between them, are one. */
  lemma StarStar(ts: seq<Token>, s: seq<char>)
    requires ts != [] && ts[0] == AnyMany
    ensures Matches([AnyMany] + ts, s) <==> Matches(ts, s)
  {
    var tt := [AnyMany] + ts;
    assert tt[1..] == ts;
    if Matches(ts, s) {
      assert s[0..] == s;
    }
    if Matches(tt, s) {
      var k :| 0 <= k <= |s| && Matches(ts, s[k..]);
      var j :| 0 <= j <= |s[k..]| && Matches(ts[1..], s[k..][j..]);
      assert s[k..][j..] == s[k + j..];
    }
  }

  ghost predicate Somewhere(ts: seq<Token>, s: seq<char>, q: nat) {
    exists k :: q <= k <= |s| && Matches(ts, s[k..])
  }

  /** pmatch(). */
  method PMatch(pattern: seq<char>, text: seq<char>) returns (r: bool)
    requires WellFormed(pattern) && CString(pattern) && CString(text)
    ensures r <==> Accepts(pattern, text)
    decreases |pattern|, 0
  {
    var p, q := 0, 0;
    assert pattern[0..] == pattern && text[0..] == text;
    while p < |pattern|
      invariant 0 <= p <= |pattern| && 0 <= q <= |text| && WellFormed(pattern[p..])
      invariant Accepts(pattern, text) <==> Accepts(pattern[p..], text[q..])
    {
      var c := pattern[p];
      ghost var rest, s := pattern[p..], text[q..];
      p := p + 1;
      if c == CTLESC {
        assert rest[2..] == pattern[p + 1..];
        if At(text, q) != pattern[p] {
          return false;
        }
        assert s[1..] == text[q + 1..];
        p, q := p + 1, q + 1;
      } else if c == CTLQUOTEMARK {
        assert rest[1..] == pattern[p..];
      } else if c == '?' {
        assert rest[1..] == pattern[p..];
        if At(text, q) == '\0' {
          return false;
        }
        assert s[1..] == text[q + 1..];
        q := q + 1;
      } else if c == '*' {
        assert rest[1..] == pattern[p..];
        r := Star(pattern[p..], text[q..]);
        return;
      } else {
        assert rest[1..] == pattern[p..];
        if At(text, q) != c {
          return false;
        }
        assert s[1..] == text[q + 1..];
        q := q + 1;
      }
    }
    return q == |text|;
  }

  /** The case of pmatch() after a star: collapse stars, skip to the first character that
      can follow, then try every place. */
  method Star(pattern: seq<char>, text: seq<char>) returns (r: bool)
    requires WellFormed(pattern) && CString(pattern) && CString(text)
    ensures r <==> Matches([AnyMany] + Tokens(pattern), text)
    decreases |pattern|, 1
  {
    var p := 0;
    assert pattern[0..] == pattern;
    while p < |pattern| && (pattern[p] == CTLQUOTEMARK || pattern[p] == '*')
      invariant 0 <= p <= |pattern| && WellFormed(pattern[p..])
      invariant Matches([AnyMany] + Tokens(pattern), text) <==> Matches([AnyMany] + Tokens(pattern[p..]), text)
    {
      assert pattern[p..][1..] == pattern[p + 1..];
      if pattern[p] == '*' { StarStar(Tokens(pattern[p..]), text); }
      p := p + 1;
    }
    ghost var ts := Tokens(pattern[p..]);
    StarSomewhere(ts, text);
    var c := At(pattern, p);
    var q := 0;
    if c != CTLESC && c != '?' && c != '[' {
      while At(text, q) != c
        invariant 0 <= q <= |text|
        invariant Somewhere(ts, text, 0) <==> Somewhere(ts, text, q)
        decreases |text| - q
      {
        if q == |text| {
          TooShort(ts, text);
          return false;
        }
        SkipOne(ts, text, q, c);
        q := q + 1;
      }
    }
    while true
      invariant 0 <= q <= |text|
      invariant Somewhere(ts, text, 0) <==> Somewhere(ts, text, q)
      decreases |text| - q
    {
      r := PMatch(pattern[p..], text[q..]);
      if r {
        return;
      }
      if q == |text| {
        return false;
      }
      NotHere(ts, text, q);
      q := q + 1;
    }
  }

  lemma StarSomewhere(ts: seq<Token>, s: seq<char>)
    ensures Matches([AnyMany] + ts, s) <==> Somewhere(ts, s, 0)
  {
    assert ([AnyMany] + ts)[1..] == ts;
  }

  lemma NotHere(ts: seq<Token>, s: seq<char>, q: nat)
    requires q < |s| && !Matches(ts, s[q..])
    ensures Somewhere(ts, s, q) <==> Somewhere(ts, s, q + 1)
  {
  }

  /** What the pattern goes on with is not at q: a literal other than s[q], or its end. */
  lemma SkipOne(ts: seq<Token>, s: seq<char>, q: nat, c: char)
    requires q < |s| && s[q] != c && (ts == [] || ts[0] == Lit(c))
    ensures Somewhere(ts, s, q) <==> Somewhere(ts, s, q + 1)
  {
    assert s[q..][0] == s[q];
    NotHere(ts, s, q);
  }

  /** A literal needs a character. */
  lemma TooShort(ts: seq<Token>, s: seq<char>)
    requires ts != [] && ts[0].Lit?
    ensures !Somewhere(ts, s, |s|)
  {
    assert s[|s|..] == [];
  }

  // --------------------------------------------------------------------- trims

  /** k is where a prefix that matches ends: the first such place, or the last. */
  ghost predicate PrefixEnd(v: seq<char>, p: seq<char>, k: nat, longest: bool)
    requires WellFormed(p) && k <= |v|
  {
    && Accepts(p, v[..k])
    && forall j :: 0 <= j <= |v| && Accepts(p, v[..j]) ==> if longest then j <= k else k <= j
  }

  /** k is where a suffix that matches begins: the last such place, or the first. */
  ghost predicate SuffixStart(v: seq<char>, p: seq<char>, k: nat, longest: bool)
    requires WellFormed(p) && k <= |v|
  {
    && Accepts(p, v[k..])
    && forall j :: 0 <= j <= |v| && Accepts(p, v[j..]) ==> if longest then k <= j else j <= k
  }

  /** The cut that ${v#p} (longest false) and ${v##p} make, or None. */
  method FindPrefix(v: seq<char>, p: seq<char>, longest: bool) returns (k: int)
    requires WellFormed(p) && CString(p) && CString(v)
    ensures -1 <= k <= |v|
    ensures k >= 0 ==> PrefixEnd(v, p, k, longest)
    ensures k < 0 ==> forall j :: 0 <= j <= |v| ==> !Accepts(p, v[..j])
  {
    if !longest {
      k := 0;
      while k <= |v|
        invariant 0 <= k <= |v| + 1
        invariant forall j :: 0 <= j < k ==> !Accepts(p, v[..j])
      {
        var m := PMatch(p, v[..k]);
        if m {
          return;
        }
        k := k + 1;
      }
      return -1;
    }
    k := |v|;
    while k >= 0
      invariant -1 <= k <= |v|
      invariant forall j :: k < j <= |v| ==> !Accepts(p, v[..j])
    {
      var m := PMatch(p, v[..k]);
      if m {
        return;
      }
      k := k - 1;
    }
  }

  /** The cut that ${v%p} and ${v%%p} make.  The latter never tries the empty suffix. */
  method FindSuffix(v: seq<char>, p: seq<char>, longest: bool) returns (k: int)
    requires WellFormed(p) && CString(p) && CString(v)
    ensures -1 <= k <= |v|
    ensures k >= 0 ==> SuffixStart(v, p, k, longest)
    ensures k < 0 ==> forall j :: 0 <= j < |v| + (if longest then 0 else 1) ==> !Accepts(p, v[j..])
  {
    if longest {
      k := 0;
      while k < |v|
        invariant 0 <= k <= |v|
        invariant forall j :: 0 <= j < k ==> !Accepts(p, v[j..])
      {
        var m := PMatch(p, v[k..]);
        if m {
          return;
        }
        k := k + 1;
      }
      return -1;
    }
    k := |v|;
    while k >= 0
      invariant -1 <= k <= |v|
      invariant forall j :: k < j <= |v| ==> !Accepts(p, v[j..])
    {
      var m := PMatch(p, v[k..]);
      if m {
        return;
      }
      k := k - 1;
    }
  }

  /** What a trim leaves of v. */
  ghost predicate TrimsLeft(v: seq<char>, p: seq<char>, longest: bool, r: seq<char>)
    requires WellFormed(p)
  {
    if exists k :: 0 <= k <= |v| && Accepts(p, v[..k])
    then exists k :: 0 <= k <= |v| && PrefixEnd(v, p, k, longest) && r == v[k..]
    else r == v
  }

  ghost predicate TrimsRight(v: seq<char>, p: seq<char>, longest: bool, r: seq<char>)
    requires WellFormed(p)
  {
    if exists k :: 0 <= k <= |v| && Accepts(p, v[k..])
    then exists k :: 0 <= k <= |v| && SuffixStart(v, p, k, longest) && r == v[..k]
    else r == v
  }

  /** VSTRIMLEFT and VSTRIMLEFTMAX: the value is the first len characters of buf, and what
      is left of it is moved to the front. */
  method TrimLeft(buf: array<char>, len: nat, p: seq<char>, longest: bool) returns (left: nat)
    requires len <= buf.Length && WellFormed(p) && CString(p) && CString(buf[..len])
    modifies buf
    ensures left <= len && TrimsLeft(old(buf[..len]), p, longest, buf[..left])
  {
    ghost var v := buf[..len];
    var k := FindPrefix(buf[..len], p, longest);
    if k < 0 {
      return len;
    }
    left := len - k;
    var i := 0;
    while i < left
      invariant 0 <= i <= left
      invariant buf[..i] == v[k..k + i]
      invariant forall j :: i <= j < len ==> buf[j] == v[j]
    {
      buf[i] := buf[k + i];
      i := i + 1;
    }
    assert v[k..k + left] == v[k..];
  }

  /** VSTRIMRIGHT and VSTRIMRIGHTMAX: the value is cut short. */
  method TrimRight(v: seq<char>, p: seq<char>, longest: bool) returns (r: seq<char>)
    requires WellFormed(p) && CString(p) && CString(v)
    ensures TrimsRight(v, p, longest, r)
  {
    var k := FindSuffix(v, p, longest);
    if k < 0 {
      if longest { OnlyEmptySuffix(v, p); }
      return v;
    }
    return v[..k];
  }

  lemma OnlyEmptySuffix(v: seq<char>, p: seq<char>)
    requires WellFormed(p) && forall j :: 0 <= j < |v| ==> !Accepts(p, v[j..])
    ensures TrimsRight(v, p, true, v)
  {
    assert v[..|v|] == v;
    if Accepts(p, v[|v|..]) { assert SuffixStart(v, p, |v|, true); }
  }
}
