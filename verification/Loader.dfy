/** The loader of the boot monitor (boot/bootimage.c): where the segments of a process end up
    in memory, and what is in it. */
module Loader {
  import opened BootImage

  const WORD: int := 0x1_0000_0000

  /** align(a, n) on 32-bit words, for n a power of two: negative sizes wrap around. */
  function Align32(a: int, n: nat): (r: int)
    requires n > 0
  {
    var x := (a % WORD + n - 1) % WORD;
    x - x % n
  }

  /** The least multiple of c that is not less than a. */
  function Up(a: nat, c: nat): (r: nat)
    requires c > 0
    ensures a <= r < a + c && r % c == 0
  {
    Ceil(a, c);
    (a + c - 1) / c * c
  }

  lemma Ceil(a: nat, c: nat)
    requires c > 0
    ensures a <= (a + c - 1) / c * c < a + c && ((a + c - 1) / c * c) % c == 0
  {
    var q := (a + c - 1) / c;
    DivMod(a + c - 1, c);
    MulMod(q, c);
  }

  lemma DivMod(x: nat, c: nat)
    requires c > 0
    ensures x == x / c * c + x % c && 0 <= x % c < c
  {
  }

  lemma {:induction false} MulMod(q: nat, c: nat)
    requires c > 0
    ensures (q * c) % c == 0
  {
    UniqueMod(q * c, q, 0, c);
  }

  lemma UniqueMod(x: int, q: int, r: int, c: nat)
    requires c > 0 && x == q * c + r && 0 <= r < c
    ensures x % c == r && x / c == q
  {
    var d := x / c - q;
    assert d * c == r - x % c;
    Bounded(d, c);
  }

  lemma Bounded(d: int, c: nat)
    ensures d >= 1 ==> d * c >= c
    ensures d <= -1 ==> d * c <= -(c as int)
  {
  }

  /** Multiples of c pass through Up. */
  lemma UpSum(a: nat, b: int, c: nat)
    requires c > 0 && a % c == 0 && -(c as int) < b && a + b >= 0
    ensures Up(a + b, c) == a + if b <= 0 then 0 else Up(b, c)
  {
    hide Up;
    var n := if b <= 0 then 0 else Up(b, c);
    var p, q := a / c, if b <= 0 then 0 else n / c;
    DivMod(a, c);
    if b > 0 { DivMod(n, c); }
    Distribute(p, q, c);
    UpIs(a + b, a + n, c, p + q);
  }

  lemma Distribute(p: nat, q: nat, c: nat)
    ensures (p + q) * c == p * c + q * c
  {
  }

  /** A multiple of c in the right place is Up. */
  lemma UpIs(x: nat, r: nat, c: nat, q: nat)
    requires c > 0 && r == q * c && x <= r < x + c
    ensures Up(x, c) == r
  {
    UniqueMod(x + c - 1, q, x + c - 1 - r, c);
  }

  /** On sizes above -c, and without overflow, align rounds up and takes a negative size for
      nothing. */
  lemma AlignIs(a: int, c: nat)
    requires c > 0 && -(c as int) < a && a + c <= WORD && WORD % c == 0
    ensures Align32(a, c) == if a <= 0 then 0 else Up(a, c)
  {
    var x := a + c - 1;
    if a < 0 {
      UniqueMod(a, -1, a + WORD, WORD);
      UniqueMod(a + WORD + c - 1, 1, x, WORD);
    } else {
      UniqueMod(a, 0, a, WORD);
      UniqueMod(x, 0, x, WORD);
    }
    assert Align32(a, c) == x - x % c;
    if a <= 0 { UniqueMod(x, 0, x, c); } else { DivMod(x, c); }
  }

  // ------------------------------------------------------------------------ memory

  /** raw_copy() within memory, of areas that do not overlap. */
  method RawCopy(mem: array<Byte>, dst: nat, src: nat, n: nat)
    requires src + n <= dst && dst + n <= mem.Length
    modifies mem
    ensures mem[dst..dst + n] == old(mem[src..src + n])
    ensures mem[..dst] == old(mem[..dst]) && mem[dst + n..] == old(mem[dst + n..])
  {
    var i := 0;
    while i < n
      invariant 0 <= i <= n
      invariant mem[dst..dst + i] == old(mem[src..src + i])
      invariant mem[..dst] == old(mem[..dst]) && mem[dst + i..] == old(mem[dst + i..])
    {
      assert mem[src + i] == mem[..dst][src + i];
      mem[dst + i] := mem[src + i];
      i := i + 1;
    }
  }

  /** raw_copy() from the monitor's own buffer. */
  method RawStore(mem: array<Byte>, dst: nat, bytes: seq<Byte>)
    requires dst + |bytes| <= mem.Length
    modifies mem
    ensures mem[..] == old(mem[..dst]) + bytes + old(mem[dst + |bytes|..])
  {
    var i := 0;
    while i < |bytes|
      invariant 0 <= i <= |bytes|
      invariant forall j :: 0 <= j < mem.Length ==> mem[j] == if dst <= j < dst + i then bytes[j - dst] else old(mem[j])
    {
      mem[dst + i] := bytes[i];
      i := i + 1;
    }
    assert mem[..] == old(mem[..dst]) + bytes + old(mem[dst + |bytes|..]);
  }

  /** now is was with n bytes from addr on cleared. */
  ghost predicate Clears(was: seq<Byte>, now: seq<Byte>, addr: nat, n: nat) {
    |now| == |was| && forall i :: 0 <= i < |was| ==> now[i] == if addr <= i < addr + n then 0 else was[i]
  }

  /** raw_clear(): clear a little, then double what is clear by copying it. */
  method RawClear(mem: array<Byte>, addr: nat, count: nat)
    requires addr + count <= mem.Length
    modifies mem
    ensures Clears(old(mem[..]), mem[..], addr, count)
  {
    var zct := if 128 > count then count else 128;
    RawStore(mem, addr, Zeros(zct));
    var left := count - zct;
    ghost var done := zct;
    while left > 0
      invariant 0 <= left && done == count - left && (left > 0 ==> zct == done > 0)
      invariant Clears(old(mem[..]), mem[..], addr, done)
      decreases left
    {
      var dst := addr + zct;
      if zct > left {
        zct := left;
      }
      ghost var was := mem[..];
      RawCopy(mem, dst, addr, zct);
      Copied(was, mem[..], dst, addr, zct, done);
      done := done + zct;
      left := left - zct;
      zct := zct * 2;
    }
  }

  lemma Copied(was: seq<Byte>, now: seq<Byte>, dst: nat, src: nat, n: nat, done: nat)
    requires |was| == |now| && src + n <= dst && dst + n <= |was| && n <= done && src + done <= |was|
    requires now[dst..dst + n] == was[src..src + n] && now[..dst] == was[..dst] && now[dst + n..] == was[dst + n..]
    requires forall i :: src <= i < src + done ==> was[i] == 0
    ensures forall i :: 0 <= i < |was| ==> now[i] == if dst <= i < dst + n then 0 else was[i]
  {
    forall i | 0 <= i < |was| ensures now[i] == if dst <= i < dst + n then 0 else was[i] {
      if i < dst {
        assert now[..dst][i] == was[..dst][i];
      } else if i < dst + n {
        assert now[dst..dst + n][i - dst] == was[src..src + n][i - dst];
      } else {
        assert now[dst + n..][i - dst - n] == was[dst + n..][i - dst - n];
      }
    }
  }

  // ------------------------------------------------------------------ get_segment

  /** Clicks are powers of two: parts of sectors, or made of sectors. */
  predicate ClickOk(c: nat) {
    c > 0 && WORD % c == 0 && (SECTOR_SIZE % c == 0 || c % SECTOR_SIZE == 0)
  }

  /** What get_segment() copies at a time. */
  function Unit(c: nat): nat { if c > SECTOR_SIZE then SECTOR_SIZE else c }

  lemma UnitDivides(c: nat)
    requires ClickOk(c)
    ensures Unit(c) > 0 && c % Unit(c) == 0 && SECTOR_SIZE % Unit(c) == 0
  {
    UniqueMod(c, 1, 0, c);
    if c > SECTOR_SIZE && SECTOR_SIZE % c == 0 { UniqueMod(SECTOR_SIZE, 0, SECTOR_SIZE, c); }
    if c < SECTOR_SIZE && c % SECTOR_SIZE == 0 { UniqueMod(c, 0, c, SECTOR_SIZE); }
  }

  lemma MultipleGap(a: nat, b: nat, u: nat)
    requires u > 0 && a % u == 0 && b % u == 0 && a < b
    ensures a + u <= b
  {
    DivMod(a, u);
    DivMod(b, u);
    Bounded(b / u - a / u, u);
    assert (b / u - a / u) * u == b - a;
  }

  lemma AddMultiples(a: nat, b: nat, u: nat)
    requires u > 0 && a % u == 0 && b % u == 0
    ensures (a + b) % u == 0 && (a >= b ==> (a - b) % u == 0)
  {
    DivMod(a, u);
    DivMod(b, u);
    UniqueMod(a + b, a / u + b / u, 0, u);
    if a >= b { UniqueMod(a - b, a / u - b / u, 0, u); }
  }

  /** A multiple of a multiple. */
  lemma Coarser(a: nat, c: nat, u: nat)
    requires u > 0 && c > 0 && c % u == 0 && a % c == 0
    ensures a % u == 0
  {
    DivMod(a, c);
    DivMod(c, u);
    var q, m := a / c, c / u;
    assert a == (q * m) * u;
    MulMod(q * m, u);
  }

  /** Rounding up in two steps. */
  lemma UpUp(a: nat, u: nat, c: nat)
    requires u > 0 && c > 0 && c % u == 0
    ensures Up(Up(a, u), c) == Up(a, c)
  {
    var r := Up(a, c);
    Coarser(r, c, u);
    if Up(a, u) > r {
      MultipleGap(r, Up(a, u), u);
    } else {
      DivMod(r, c);
      UpIs(Up(a, u), r, c, r / c);
    }
  }

  /** now is was with `bytes` stored at addr, zeros after that up to end, and nothing else
      changed. */
  ghost predicate Holds(was: seq<Byte>, now: seq<Byte>, addr: nat, bytes: seq<Byte>, end: nat) {
    && |now| == |was| && addr + |bytes| <= end <= |was|
    && (forall i :: 0 <= i < |bytes| ==> now[addr + i] == bytes[i])
    && (forall i :: addr + |bytes| <= i < end ==> now[i] == 0)
    && (forall i :: 0 <= i < addr || end <= i < |was| ==> now[i] == was[i])
  }

  /** k bytes of the image from base on; there need be none if k is 0. */
  function Slice(img: seq<Byte>, base: nat, k: nat): (r: seq<Byte>)
    requires k > 0 ==> base + k <= |img|
    ensures |r| == k
  {
    if k == 0 then [] else img[base..base + k]
  }

  /** When get_segment() succeeds: an image of len bytes has the sectors, and there is room
      for a click from every unit on. */
  predicate Room(len: nat, base: nat, size: int, addr: nat, limit: nat, click: nat)
    requires ClickOk(click)
  {
    size > 0 ==> base + Up(size, SECTOR_SIZE) <= len && addr + Up(size, Unit(click)) - Unit(click) + click <= limit
  }

  lemma NoSector(len: nat, vsec: nat, v: nat, k: nat, size: int, addr: nat, limit: nat, click: nat)
    requires ClickOk(click) && SECTOR_SIZE * v == SECTOR_SIZE * vsec + k && k < size && SECTOR_SIZE * (v + 1) > len
    ensures !Room(len, SECTOR_SIZE * vsec, size, addr, limit, click)
  {
    UniqueMod(k, v - vsec, 0, SECTOR_SIZE);
    MultipleGap(k, Up(size, SECTOR_SIZE), SECTOR_SIZE);
  }

  lemma NoClick(len: nat, base: nat, k: nat, cnt: nat, size: int, addr: nat, limit: nat, click: nat)
    requires Cursor(k, cnt, click) && k < size && addr + k + click > limit
    ensures !Room(len, base, size, addr, limit, click)
  {
    MultipleGap(k, Up(size, Unit(click)), Unit(click));
  }

  lemma HadRoom(len: nat, base: nat, k: nat, cnt: nat, size: int, addr: nat, limit: nat, click: nat)
    requires ClickOk(click) && k == Up(if size > 0 then size else 0, Unit(click)) && Up(k, SECTOR_SIZE) == k + cnt
    requires k > 0 ==> base + k + cnt <= len && addr + k - Unit(click) + click <= limit
    ensures Room(len, base, size, addr, limit, click)
  {
    if size > 0 {
      UnitDivides(click);
      UpUp(size, Unit(click), SECTOR_SIZE);
    }
  }

  /** get_segment()'s loop: whole units of the image from sector vsec on, until size bytes are
      there.  The image is img, in sectors. */
  method CopySectors(mem: array<Byte>, img: seq<Byte>, vsec: nat, size: int, addr: nat, limit: nat, click: nat)
    returns (ok: bool, k: nat, v: nat)
    requires ClickOk(click) && addr % click == 0 && addr <= limit <= mem.Length
    modifies mem
    ensures ok ==> k == Up(if size > 0 then size else 0, Unit(click))
    ensures ok ==> addr + Up(k, click) <= limit && SECTOR_SIZE * v == SECTOR_SIZE * vsec + Up(k, SECTOR_SIZE)
    ensures addr + k <= limit && (k > 0 ==> SECTOR_SIZE * vsec + k <= |img|)
    ensures Holds(old(mem[..]), mem[..], addr, Slice(img, SECTOR_SIZE * vsec, k), addr + k)
    ensures ok <==> Room(|img|, SECTOR_SIZE * vsec, size, addr, limit, click)
  {
    var base := SECTOR_SIZE * vsec;
    hide ClickOk, Holds, Up, Unit, Cursor, Slice, Copying, Room;
    k, v := 0, vsec;
    var cnt: nat := 0;
    ghost var m0 := mem[..];
    CopyingStart(m0, img, vsec, size, addr, limit, click);
    while size - k > 0
      invariant cnt < SECTOR_SIZE && SECTOR_SIZE * v == base + k + cnt && addr <= limit
      invariant Copying(m0, mem[..], img, base, k, cnt, size, addr, limit, click)
      decreases size - k
    {
      CopyingParts(m0, mem[..], img, base, k, cnt, size, addr, limit, click);
      if cnt == 0 {
        if SECTOR_SIZE * (v + 1) > |img| {
          NoSector(|img|, vsec, v, k, size, addr, limit, click);
          return false, k, v;
        }
        v, cnt := v + 1, SECTOR_SIZE;
        CopyingRefill(m0, mem[..], img, base, k, size, addr, limit, click);
      }
      if addr + k + click > limit {
        NoClick(|img|, base, k, cnt, size, addr, limit, click);
        return false, k, v;
      }
      var n := if click > cnt then cnt else click;
      CopyingUnit(m0, mem[..], img, base, k, cnt, size, addr, limit, click);
      ghost var was := mem[..];
      RawStore(mem, addr + k, img[base + k..base + k + n]);
      CopyingStep(m0, was, mem[..], img, base, k, cnt, size, addr, limit, click);
      k, cnt := k + n, cnt - n;
    }
    ok := true;
    CopyingParts(m0, mem[..], img, base, k, cnt, size, addr, limit, click);
    CopyingEnd(m0, mem[..], img, base, k, cnt, size, addr, limit, click);
    WholeSectors(vsec, k, cnt, v);
    HadRoom(|img|, base, k, cnt, size, addr, limit, click);
  }

  /** k bytes have been copied and cnt are left in the buffer; both are whole units. */
  ghost predicate Copying(m0: seq<Byte>, m: seq<Byte>, img: seq<Byte>, base: nat, k: nat, cnt: nat, size: int,
                          addr: nat, limit: nat, click: nat)
  {
    && Cursor(k, cnt, click) && addr + k <= limit && limit <= |m|
    && (k > 0 || cnt > 0 ==> base + k + cnt <= |img|)
    && (k > 0 ==> k - Unit(click) < size && addr + k - Unit(click) + click <= limit)
    && Holds(m0, m, addr, Slice(img, base, k), addr + k)
  }

  lemma CopyingStart(m: seq<Byte>, img: seq<Byte>, vsec: nat, size: int, addr: nat, limit: nat, click: nat)
    requires ClickOk(click) && addr <= limit <= |m|
    ensures Copying(m, m, img, SECTOR_SIZE * vsec, 0, 0, size, addr, limit, click)
  {
    StartCursor(click);
    HoldsNothing(m, addr);
  }

  lemma CopyingParts(m0: seq<Byte>, m: seq<Byte>, img: seq<Byte>, base: nat, k: nat, cnt: nat, size: int, addr: nat,
                     limit: nat, click: nat)
    requires Copying(m0, m, img, base, k, cnt, size, addr, limit, click)
    ensures addr + k <= limit && (k > 0 || cnt > 0 ==> base + k + cnt <= |img|) && click > 0 && Cursor(k, cnt, click)
    ensures Unit(click) > 0 && (k > 0 ==> addr + k - Unit(click) + click <= limit)
    ensures Holds(m0, m, addr, Slice(img, base, k), addr + k)
  {
  }

  lemma CopyingRefill(m0: seq<Byte>, m: seq<Byte>, img: seq<Byte>, base: nat, k: nat, size: int, addr: nat, limit: nat,
                      click: nat)
    requires Copying(m0, m, img, base, k, 0, size, addr, limit, click) && base + k + SECTOR_SIZE <= |img|
    ensures Copying(m0, m, img, base, k, SECTOR_SIZE, size, addr, limit, click)
  {
    FullCursor(k, click);
  }

  lemma CopyingUnit(m0: seq<Byte>, m: seq<Byte>, img: seq<Byte>, base: nat, k: nat, cnt: nat, size: int, addr: nat,
                    limit: nat, click: nat)
    requires Copying(m0, m, img, base, k, cnt, size, addr, limit, click) && 0 < cnt <= SECTOR_SIZE
    ensures (if click > cnt then cnt else click) == Unit(click) && 0 < Unit(click) <= cnt && Unit(click) <= click
    ensures base + k + cnt <= |img|
  {
    NextCursor(k, cnt, click);
    FirstUnit(click);
  }

  lemma CopyingStep(m0: seq<Byte>, was: seq<Byte>, now: seq<Byte>, img: seq<Byte>, base: nat, k: nat, cnt: nat,
                    size: int,
                    addr: nat, limit: nat, click: nat)
    requires Copying(m0, was, img, base, k, cnt, size, addr, limit, click) && 0 < cnt <= SECTOR_SIZE
    requires k < size && addr + k + click <= limit
    requires var n := if click > cnt then cnt else click;
             base + k + n <= |img| && now == was[..addr + k] + img[base + k..base + k + n] + was[addr + k + n..]
    ensures var n := if click > cnt then cnt else click;
            cnt >= n && Copying(m0, now, img, base, k + n, cnt - n, size, addr, limit, click)
  {
    hide Holds, ClickOk, Slice;
    var n := if click > cnt then cnt else click;
    NextCursor(k, cnt, click);
    FirstUnit(click);
    assert |m0| == |was| by { HoldsSize(m0, was, addr, Slice(img, base, k), addr + k); }
    Stored(m0, was, now, addr, img, base, k, n);
  }

  lemma HoldsSize(was: seq<Byte>, now: seq<Byte>, addr: nat, bytes: seq<Byte>, end: nat)
    requires Holds(was, now, addr, bytes, end)
    ensures |was| == |now|
  {
  }

  lemma CopyingEnd(m0: seq<Byte>, m: seq<Byte>, img: seq<Byte>, base: nat, k: nat, cnt: nat, size: int, addr: nat,
                   limit: nat, click: nat)
    requires Copying(m0, m, img, base, k, cnt, size, addr, limit, click) && k >= size && addr <= limit
    ensures k == Up(if size > 0 then size else 0, Unit(click)) && addr + Up(k, click) <= limit
  {
    hide Up;
    Fits(k, cnt, addr, click, limit);
    UnitsUp(k, cnt, size, click);
  }

  lemma WholeSectors(vsec: nat, k: nat, cnt: nat, v: nat)
    requires SECTOR_SIZE * v == SECTOR_SIZE * vsec + k + cnt && cnt < SECTOR_SIZE
    ensures Up(k, SECTOR_SIZE) == k + cnt
  {
    UpIs(k, k + cnt, SECTOR_SIZE, v - vsec);
  }

  lemma HoldsNothing(m: seq<Byte>, addr: nat)
    requires addr <= |m|
    ensures Holds(m, m, addr, [], addr)
  {
  }

  /** Both what has been copied and what is left in the buffer are whole units. */
  ghost predicate Cursor(k: nat, cnt: nat, click: nat) {
    ClickOk(click) && k % Unit(click) == 0 && cnt % Unit(click) == 0
  }

  lemma FirstUnit(click: nat)
    requires ClickOk(click)
    ensures 0 < Unit(click) <= click
  {
  }

  lemma StartCursor(click: nat)
    requires ClickOk(click)
    ensures Cursor(0, 0, click)
  {
    UniqueMod(0, 0, 0, Unit(click));
  }

  lemma FullCursor(k: nat, click: nat)
    requires Cursor(k, 0, click)
    ensures Cursor(k, SECTOR_SIZE, click)
  {
    UnitDivides(click);
  }

  lemma NextCursor(k: nat, cnt: nat, click: nat)
    requires Cursor(k, cnt, click) && 0 < cnt <= SECTOR_SIZE
    ensures var n := if click > cnt then cnt else click;
            n == Unit(click) && Cursor(k + n, cnt - n, click)
  {
    var u := Unit(click);
    FullUnit(cnt, click, u);
    AddMultiples(k, u, u);
    AddMultiples(cnt, u, u);
  }

  lemma UnitsUp(k: nat, cnt: nat, size: int, click: nat)
    requires Cursor(k, cnt, click) && k >= size && (k > 0 ==> k - Unit(click) < size)
    ensures k == Up(if size > 0 then size else 0, Unit(click))
  {
    var u := Unit(click);
    DivMod(k, u);
    UpIs(if size > 0 then size else 0, k, u, k / u);
  }

  /** There is always a whole unit left in the buffer. */
  lemma FullUnit(cnt: nat, click: nat, u: nat)
    requires ClickOk(click) && u == Unit(click) && 0 < cnt <= SECTOR_SIZE && cnt % u == 0
    ensures cnt >= u && (if click > cnt then cnt else click) == u && u % u == 0
  {
    UniqueMod(u, 1, 0, u);
    UniqueMod(0, 0, 0, u);
    MultipleGap(0, cnt, u);
  }

  lemma Fits(k: nat, cnt: nat, addr: nat, click: nat, limit: nat)
    requires Cursor(k, cnt, click) && (k > 0 ==> addr + k - Unit(click) + click <= limit)
    requires addr <= limit
    ensures addr + Up(k, click) <= limit && (k > 0 ==> addr + k <= limit)
  {
    var u := Unit(click);
    UnitDivides(click);
    if k == 0 { UpIs(0, 0, click, 0); }
    if k > 0 {
      Coarser(Up(k, click), click, u);
      AddMultiples(k, click, u);
      UniqueMod(u, 1, 0, u);
      if Up(k, click) > k - u + click {
        AddMultiples(k + click, u, u);
        MultipleGap(k + click - u, Up(k, click), u);
      }
    }
  }

  lemma Stored(first: seq<Byte>, was: seq<Byte>, now: seq<Byte>, addr: nat, img: seq<Byte>, base: nat, k: nat, u: nat)
    requires u > 0 && base + k + u <= |img| && addr + k + u <= |was| == |first|
    requires Holds(first, was, addr, Slice(img, base, k), addr + k)
    requires now == was[..addr + k] + img[base + k..base + k + u] + was[addr + k + u..]
    ensures Holds(first, now, addr, Slice(img, base, k + u), addr + k + u)
  {
    var bytes := img[base..base + k + u];
    forall i | 0 <= i < |bytes| ensures now[addr + i] == bytes[i] {
      if i < k {
        assert Slice(img, base, k)[i] == was[addr + i];
        assert now[addr + i] == was[addr + i];
      } else {
        assert now[addr + i] == img[base + k..base + k + u][i - k];
      }
    }
  }

  /** Zeros after the bytes. */
  lemma ZeroExtended(first: seq<Byte>, was: seq<Byte>, now: seq<Byte>, addr: nat, bytes: seq<Byte>, end: nat, n: nat)
    requires Holds(first, was, addr, bytes, end) && end + n <= |was| && Clears(was, now, end, n)
    ensures Holds(first, now, addr, bytes, end + n)
  {
  }

  /** get_segment(): the segment is read, and zero extended to a click.  Addresses and sizes do
      not overflow 32 bits. */
  method GetSegment(mem: array<Byte>, img: seq<Byte>, vsec: nat, size: int, addr: nat, limit: nat, click: nat)
    returns (ok: bool, vsec': nat, size': int, addr': nat)
    requires ClickOk(click) && addr % click == 0 && addr <= limit <= mem.Length && limit + click <= WORD
    modifies mem
    ensures addr <= addr' <= limit
    ensures ok ==> addr' == addr + Up(if size > 0 then size else 0, click) && size' == size - (addr' - addr)
    ensures ok ==> SECTOR_SIZE * vsec' == SECTOR_SIZE * vsec + Up(if size > 0 then size else 0, SECTOR_SIZE)
    ensures var k := if ok then Up(if size > 0 then size else 0, Unit(click)) else addr' - addr;
            && (k > 0 ==> SECTOR_SIZE * vsec + k <= |img|) && addr + k <= addr'
            && Holds(old(mem[..]), mem[..], addr, Slice(img, SECTOR_SIZE * vsec, k), addr')
    ensures ok <==> Room(|img|, SECTOR_SIZE * vsec, size, addr, limit, click)
  {
    hide Holds, ClickOk, Up, Room;
    var want := if size > 0 then size else 0;
    var k, v;
    ok, k, v := CopySectors(mem, img, vsec, size, addr, limit, click);
    if !ok {
      return false, v, size - k, addr + k;
    }
    SegmentEnd(want, addr, k, click);
    var n := Align32(addr + k, click) - (addr + k);
    ghost var was := mem[..];
    RawClear(mem, addr + k, n);
    ZeroExtended(old(mem[..]), was, mem[..], addr, Slice(img, SECTOR_SIZE * vsec, k), addr + k, n);
    return true, v, size - k - n, addr + k + n;
  }

  /** Where the zero extension ends. */
  lemma SegmentEnd(want: nat, addr: nat, k: nat, click: nat)
    requires ClickOk(click) && addr % click == 0 && k == Up(want, Unit(click)) && addr + k + click <= WORD
    ensures Align32(addr + k, click) == addr + Up(want, click) >= addr + k && Up(k, click) == Up(want, click)
    ensures Up(k, SECTOR_SIZE) == Up(want, SECTOR_SIZE)
  {
    hide Up, Align32;
    UnitDivides(click);
    UpUp(want, Unit(click), click);
    UpUp(want, Unit(click), SECTOR_SIZE);
    AlignIs(addr + k, click);
    UpSum(addr, k, click);
    UpIs(0, 0, click, 0);
  }

  // ------------------------------------------------------- a process, as a whole

  /** Segment sizes as exec_image() has them: text includes the header if page aligned. */
  datatype Sizes = Sizes(text: nat, data: nat, bss: nat, stack: nat, sep: bool)

  /** Where the data segment starts, and how many of its bytes are in the image. */
  function DataStart(z: Sizes, addr: nat, click: nat): nat
    requires click > 0
  {
    if z.sep then addr + Up(z.text, click) else addr
  }

  function InImage(z: Sizes): nat { if z.sep then z.data else z.text + z.data }

  /** bytes at addr, and zeros after that up to end. */
  ghost predicate Segment(mem: seq<Byte>, addr: nat, bytes: seq<Byte>, end: nat) {
    && addr + |bytes| <= end <= |mem|
    && (forall i :: 0 <= i < |bytes| ==> mem[addr + i] == bytes[i])
    && (forall i :: addr + |bytes| <= i < end ==> mem[i] == 0)
  }

  /** Nothing outside changed. */
  ghost predicate Outside(was: seq<Byte>, now: seq<Byte>, lo: nat, hi: nat) {
    |now| == |was| && forall i :: 0 <= i < |was| && (i < lo || hi <= i) ==> now[i] == was[i]
  }

  lemma HoldsParts(was: seq<Byte>, now: seq<Byte>, addr: nat, bytes: seq<Byte>, end: nat)
    requires Holds(was, now, addr, bytes, end)
    ensures Segment(now, addr, bytes, end) && Outside(was, now, addr, end)
  {
  }

  /** A later write above it does not disturb a segment. */
  lemma SegmentStays(was: seq<Byte>, now: seq<Byte>, addr: nat, bytes: seq<Byte>, end: nat, hi: nat)
    requires Segment(was, addr, bytes, end) && Outside(was, now, end, hi)
    ensures Segment(now, addr, bytes, end)
  {
  }

  /** Bss and stack: clear the clicks of the bss that the data does not reach, and leave room
      for the stack.  left is what get_segment() left of the data size, at most 0. */
  method AddBssAndStack(mem: array<Byte>, left: int, bss: nat, stack: nat, addr: nat, limit: nat, click: nat)
    returns (ok: bool, clear: nat, end: nat)
    requires ClickOk(click) && addr % click == 0 && addr <= limit <= mem.Length && -(click as int) < left <= 0
    requires addr + bss + stack + 2 * click <= WORD
    modifies mem
    ensures ok <==> addr + (if bss + left <= 0 then 0 else Up(bss + left, click)) <= limit
    ensures ok ==> clear == addr + if bss + left <= 0 then 0 else Up(bss + left, click)
    ensures ok ==> end == addr + (if bss + stack + left <= 0 then 0 else Up(bss + stack + left, click))
    ensures ok ==> Clears(old(mem[..]), mem[..], addr, clear - addr)
    ensures !ok ==> mem[..] == old(mem[..])
  {
    var b := bss + left;
    AlignIs(b, click);
    var n := Align32(b, click);
    if addr + n > limit {
      return false, addr, addr;
    }
    RawClear(mem, addr, n);
    var s := stack + (b - n);
    StackClicks(b, stack, n, click);
    AlignIs(s, click);
    return true, addr + n, addr + n + Align32(s, click);
  }

  /** Rounding the bss and then the stack is rounding both together. */
  lemma StackClicks(b: int, stack: nat, n: nat, click: nat)
    requires click > 0 && -(click as int) < b && n == if b <= 0 then 0 else Up(b, click)
    ensures var s := stack + b - n;
            && -(click as int) < s <= stack
            && n + (if s <= 0 then 0 else Up(s, click)) == if b + stack <= 0 then 0 else Up(b + stack, click)
  {
    hide Up;
    var s := stack + b - n;
    if b > 0 { UpSum(n, s, click); }
  }

  /** The data segment with its bss and stack. */
  method LoadData(mem: array<Byte>, img: seq<Byte>, vsec: nat, d: nat, bss: nat, stack: nat, addr: nat, limit: nat,
                  click: nat)
    returns (ok: bool, vsec': nat, clear: nat, end: nat)
    requires ClickOk(click) && addr % click == 0 && addr <= limit <= mem.Length
    requires limit + bss + stack + 2 * click <= WORD
    modifies mem
    ensures addr <= clear <= limit && Outside(old(mem[..]), mem[..], addr, clear)
    ensures ok ==> end == addr + Up(d + bss + stack, click) && clear == addr + Up(d + bss, click)
    ensures ok ==> SECTOR_SIZE * vsec' == SECTOR_SIZE * vsec + Up(d, SECTOR_SIZE)
    ensures ok ==> var k := Up(d, Unit(click));
              (k > 0 ==> SECTOR_SIZE * vsec + k <= |img|)
                && Segment(mem[..], addr, Slice(img, SECTOR_SIZE * vsec, k), clear)
    ensures ok <==> Room(|img|, SECTOR_SIZE * vsec, d, addr, limit, click) && addr + Up(d + bss, click) <= limit
  {
    hide Up, Slice, ClickOk, Room;
    var left, a;
    ok, vsec', left, a := GetSegment(mem, img, vsec, d, addr, limit, click);
    ghost var m1 := mem[..];
    ghost var k := if ok then Up(d, Unit(click)) else a - addr;
    HoldsParts(old(mem[..]), m1, addr, Slice(img, SECTOR_SIZE * vsec, k), a);
    if !ok {
      return false, vsec', a, a;
    }
    UpMultiple(addr, d, click);
    UpTail(d, bss, click);
    ok, clear, end := AddBssAndStack(mem, left, bss, stack, a, limit, click);
    if !ok {
      return false, vsec', a, a;
    }
    UpTail(d, bss + stack, click);
    Extended(old(mem[..]), m1, mem[..], addr, Slice(img, SECTOR_SIZE * vsec, k), a, clear);
  }

  lemma UpMultiple(addr: nat, d: nat, click: nat)
    requires click > 0 && addr % click == 0
    ensures (addr + Up(d, click)) % click == 0
  {
    AddMultiples(addr, Up(d, click), click);
  }

  /** What is left after rounding d up, rounded in turn. */
  lemma UpTail(d: nat, b: nat, click: nat)
    requires click > 0
    ensures var left := d - Up(d, click);
            Up(d + b, click) == Up(d, click) + if b + left <= 0 then 0 else Up(b + left, click)
  {
    UpSum(Up(d, click), b + d - Up(d, click), click);
  }

  lemma Extended(first: seq<Byte>, was: seq<Byte>, now: seq<Byte>, addr: nat, bytes: seq<Byte>, mid: nat, end: nat)
    requires Segment(was, addr, bytes, mid) && Outside(first, was, addr, mid)
    requires mid <= end <= |was| && Clears(was, now, mid, end - mid)
    ensures Segment(now, addr, bytes, end) && Outside(first, now, addr, end)
  {
  }

  /** When the process z, from image byte base on, can be loaded at addr.  The stack is not
      checked. */
  predicate ProcessRoom(z: Sizes, len: nat, base: nat, addr: nat, limit: nat, click: nat)
    requires ClickOk(click)
  {
    && (z.sep ==> Room(len, base, z.text, addr, limit, click))
    && Room(len, base + TextSectors(z), InImage(z), DataStart(z, addr, click), limit, click)
    && DataStart(z, addr, click) + Up(InImage(z) + z.bss, click) <= limit
  }

  /** One process of the loop of exec_image(), loaded at a click boundary: its data segment
      ends at exactly the next click boundary after data, bss and stack; its text and data are
      the bytes of the image, followed by zeros as far as the bss goes; nothing below its start
      and nothing from limit on is touched. */
  method LoadProcess(mem: array<Byte>, img: seq<Byte>, vsec: nat, z: Sizes, addr: nat, limit: nat, click: nat)
    returns (ok: bool, vsec': nat, clear: nat, end: nat)
    requires ClickOk(click) && addr % click == 0 && addr <= limit <= mem.Length
    requires limit + z.bss + z.stack + 2 * click <= WORD
    modifies mem
    ensures addr <= clear <= limit && Outside(old(mem[..]), mem[..], addr, clear)
    ensures ok ==> end == DataStart(z, addr, click) + Up(InImage(z) + z.bss + z.stack, click) && end % click == 0
    ensures ok ==> clear == DataStart(z, addr, click) + Up(InImage(z) + z.bss, click)
    ensures ok ==>
              var t, k := if z.sep then Up(z.text, Unit(click)) else 0, Up(InImage(z), Unit(click));
              var base := SECTOR_SIZE * vsec + if z.sep then Up(z.text, SECTOR_SIZE) else 0;
              && (t > 0 ==> SECTOR_SIZE * vsec + t <= |img|) && (k > 0 ==> base + k <= |img|)
              && SECTOR_SIZE * vsec' == base + Up(InImage(z), SECTOR_SIZE)
              && Segment(mem[..], addr, Slice(img, SECTOR_SIZE * vsec, t), DataStart(z, addr, click))
              && Segment(mem[..], DataStart(z, addr, click), Slice(img, base, k), clear)
    ensures ok <==> ProcessRoom(z, |img|, SECTOR_SIZE * vsec, addr, limit, click)
  {
    hide Up, Slice, ClickOk, Unit, Room;
    ghost var m0 := mem[..];
    var a, v := addr, vsec;
    if z.sep {
      var left;
      ok, v, left, a := GetSegment(mem, img, vsec, z.text, addr, limit, click);
      HoldsParts(m0, mem[..], addr,
                 Slice(img, SECTOR_SIZE * vsec, if ok then Up(z.text, Unit(click)) else a - addr), a);
      if !ok {
        return false, v, a, a;
      }
      UpMultiple(addr, z.text, click);
    }
    ghost var m1 := mem[..];
    ok, vsec', clear, end := LoadData(mem, img, v, InImage(z), z.bss, z.stack, a, limit, click);
    if ok {
      UpMultiple(a, InImage(z) + z.bss + z.stack, click);
      if z.sep {
        SegmentStays(m1, mem[..], addr, Slice(img, SECTOR_SIZE * vsec, Up(z.text, Unit(click))), a, clear);
      }
    }
  }

  /** With an image that make_image() padded, the bytes between the end of the data and the end
      of its last unit are zeros too. */
  lemma PaddedSegment(mem: seq<Byte>, addr: nat, img: seq<Byte>, base: nat, s: seq<Byte>, k: nat, end: nat)
    requires base + Align(|s|) <= |img| && img[base..base + Align(|s|)] == Padded(s) && |s| <= k <= Align(|s|)
    requires Segment(mem, addr, Slice(img, base, k), end)
    ensures Segment(mem, addr, s, end)
  {
    var bytes := Slice(img, base, k);
    assert forall i :: 0 <= i < k ==> bytes[i] == Padded(s)[i];
    forall i | addr + |s| <= i < end ensures mem[i] == 0 {
      if i < addr + k { assert mem[addr + (i - addr)] == bytes[i - addr]; }
    }
    forall i | 0 <= i < |s| ensures mem[addr + i] == s[i] {
      assert mem[addr + i] == bytes[i];
    }
  }

  // ------------------------------------------------------------- all the processes

  /** A segment: k bytes of the image from base on, at addr, and zeros up to end. */
  datatype Seg = Seg(addr: nat, base: nat, k: nat, end: nat)

  function TextSectors(z: Sizes): nat { if z.sep then Up(z.text, SECTOR_SIZE) else 0 }

  /** The text and data segments of one process. */
  function Two(z: Sizes, base: nat, addr: nat, click: nat): (r: seq<Seg>)
    requires click > 0
    ensures |r| == 2
  {
    var b, ds := base + SECTOR_SIZE, DataStart(z, addr, click);
    [Seg(addr, b, if z.sep then Up(z.text, Unit(click)) else 0, ds),
     Seg(ds, b + TextSectors(z), Up(InImage(z), Unit(click)), ds + Up(InImage(z) + z.bss, click))]
  }

  /** Where the processes from zs on go, the first of them from image byte base and address
      addr on; every process has a header sector in the image. */
  function Layout(zs: seq<Sizes>, base: nat, addr: nat, click: nat): seq<Seg>
    requires click > 0
  {
    if zs == [] then []
    else
      var z := zs[0];
      Two(z, base, addr, click) +
      Layout(zs[1..], base + SECTOR_SIZE + TextSectors(z) + Up(InImage(z), SECTOR_SIZE),
             DataStart(z, addr, click) + Up(InImage(z) + z.bss + z.stack, click), click)
  }

  ghost predicate Loaded(mem: seq<Byte>, img: seq<Byte>, s: Seg) {
    (s.k > 0 ==> s.base + s.k <= |img|) && Segment(mem, s.addr, Slice(img, s.base, s.k), s.end)
  }

  ghost predicate AllIn(mem: seq<Byte>, img: seq<Byte>, segs: seq<Seg>) {
    forall j :: 0 <= j < |segs| ==> Loaded(mem, img, segs[j])
  }

  ghost predicate Total(zs: seq<Sizes>, limit: nat, click: nat) {
    forall j :: 0 <= j < |zs| ==> limit + zs[j].bss + zs[j].stack + 2 * click <= WORD
  }

  predicate Aligned(a: nat, c: nat) { c > 0 && a % c == 0 }

  /** One turn of the loop: the header sector is passed, then the process is loaded. */
  method LoadOne(mem: array<Byte>, img: seq<Byte>, v: nat, z: Sizes, addr: nat, limit: nat, click: nat)
    returns (ok: bool, v': nat, clear: nat, end: nat)
    requires ClickOk(click) && Aligned(addr, click) && addr <= limit <= mem.Length
    requires limit + z.bss + z.stack + 2 * click <= WORD
    modifies mem
    ensures addr <= clear <= limit && Outside(old(mem[..]), mem[..], addr, clear)
    ensures ok ==> AllLoaded(mem[..], img, Two(z, SECTOR_SIZE * v, addr, click), end)
    ensures ok ==> SECTOR_SIZE * v' == SECTOR_SIZE * v + SECTOR_SIZE + TextSectors(z) + Up(InImage(z), SECTOR_SIZE)
    ensures ok ==>
              && end == DataStart(z, addr, click) + Up(InImage(z) + z.bss + z.stack, click)
              && Aligned(end, click) && end >= addr
    ensures ok <==> ProcessRoom(z, |img|, SECTOR_SIZE * v + SECTOR_SIZE, addr, limit, click)
  {
    hide Up, Unit, Segment, Loaded, Slice, ProcessRoom;
    FirstUnit(click);
    ok, v', clear, end := LoadProcess(mem, img, v + 1, z, addr, limit, click);
    if ok {
      JustLoaded(mem[..], img, z, v, addr, clear, click);
      UpGrows(InImage(z) + z.bss, z.stack, click);
    }
  }

  /** All the processes can be loaded, one after the other. */
  ghost predicate AllRoom(zs: seq<Sizes>, len: nat, base: nat, addr: nat, limit: nat, click: nat)
    requires ClickOk(click)
  {
    zs == [] ||
    (var z := zs[0];
     && addr <= limit && ProcessRoom(z, len, base + SECTOR_SIZE, addr, limit, click)
     && AllRoom(zs[1..], len, base + SECTOR_SIZE + TextSectors(z) + Up(InImage(z), SECTOR_SIZE),
                DataStart(z, addr, click) + Up(InImage(z) + z.bss + z.stack, click), limit, click))
  }

  lemma RoomStep(zs: seq<Sizes>, i: nat, len: nat, base: nat, a: nat, limit: nat, click: nat)
    requires ClickOk(click) && i < |zs|
    ensures var z := zs[i];
            AllRoom(zs[i..], len, base, a, limit, click) <==>
              && a <= limit && ProcessRoom(z, len, base + SECTOR_SIZE, a, limit, click)
              && AllRoom(zs[i + 1..], len, base + SECTOR_SIZE + TextSectors(z) + Up(InImage(z), SECTOR_SIZE),
                         DataStart(z, a, click) + Up(InImage(z) + z.bss + z.stack, click), limit, click)
  {
    hide Up, DataStart, TextSectors, InImage, ProcessRoom;
    assert zs[i..][1..] == zs[i + 1..] && zs[i..][0] == zs[i];
  }

  /** The loop of exec_image(), without labels and without extended memory: it gets to the end
      exactly if there is room for all, and then every segment of every process is where the
      layout says and undisturbed. */
  method LoadAll(mem: array<Byte>, img: seq<Byte>, zs: seq<Sizes>, addr: nat, limit: nat, click: nat) returns (ok: bool)
    requires ClickOk(click) && Aligned(addr, click) && limit <= mem.Length && Total(zs, limit, click)
    modifies mem
    ensures ok <==> AllRoom(zs, |img|, 0, addr, limit, click)
    ensures ok ==> AllIn(mem[..], img, Layout(zs, 0, addr, click))
    ensures Outside(old(mem[..]), mem[..], addr, limit)
  {
    FirstUnit(click);
    assert zs[0..] == zs && zs[|zs|..] == [];
    assert AllRoom(zs[|zs|..], |img|, 0, 0, limit, click);
    hide Up, ClickOk, Unit, ProcessRoom, AllLoaded, Two, DataStart, Outside, TextSectors, Layout, Aligned, AllIn,
      InImage, Sofar;
    var i, v, a := 0, 0, addr;
    ghost var m0 := mem[..];
    SofarStart(m0, img, zs, addr, limit, click);
    while i < |zs|
      invariant 0 <= i <= |zs| && addr <= a && Aligned(a, click)
      invariant Sofar(m0, mem[..], img, zs, i, v, a, addr, limit, click)
      invariant AllRoom(zs, |img|, 0, addr, limit, click) <==> AllRoom(zs[i..], |img|, SECTOR_SIZE * v, a, limit, click)
    {
      RoomStep(zs, i, |img|, SECTOR_SIZE * v, a, limit, click);
      if a > limit {
        SofarOutside(m0, mem[..], img, zs, i, v, a, addr, limit, click);
        return false;
      }
      ghost var was := mem[..];
      var more, clear, end;
      ok, more, clear, end := LoadOne(mem, img, v, zs[i], a, limit, click);
      if !ok {
        SofarOutside(m0, was, img, zs, i, v, a, addr, limit, click);
        OutsideTrans(m0, was, mem[..], addr, a, clear, limit);
        return;
      }
      SofarStep(m0, was, mem[..], img, zs, i, v, a, addr, limit, click, more, clear, end);
      i, v, a := i + 1, more, end;
    }
    ok := true;
    SofarEnd(m0, mem[..], img, zs, v, a, addr, limit, click);
    SofarOutside(m0, mem[..], img, zs, i, v, a, addr, limit, click);
  }

  /** i processes have been loaded, and the next one goes to a. */
  ghost predicate Sofar(m0: seq<Byte>, m: seq<Byte>, img: seq<Byte>, zs: seq<Sizes>, i: nat, v: nat, a: nat,
                        addr: nat, limit: nat, click: nat)
  {
    && i <= |zs| && click > 0 && Outside(m0, m, addr, limit)
    && exists done :: Layout(zs, 0, addr, click) == done + Layout(zs[i..], SECTOR_SIZE * v, a, click)
                      && AllLoaded(m, img, done, a)
  }

  lemma SofarStart(m: seq<Byte>, img: seq<Byte>, zs: seq<Sizes>, addr: nat, limit: nat, click: nat)
    requires click > 0
    ensures Sofar(m, m, img, zs, 0, 0, addr, addr, limit, click)
  {
    hide Layout;
    assert zs[0..] == zs;
    var done: seq<Seg> := [];
    assert Layout(zs, 0, addr, click) == done + Layout(zs[0..], SECTOR_SIZE * 0, addr, click);
    NoneLoaded(m, img, addr);
  }

  lemma SofarOutside(m0: seq<Byte>, m: seq<Byte>, img: seq<Byte>, zs: seq<Sizes>, i: nat, v: nat, a: nat,
                     addr: nat, limit: nat, click: nat)
    requires Sofar(m0, m, img, zs, i, v, a, addr, limit, click)
    ensures Outside(m0, m, addr, limit)
  {
  }

  lemma SofarStep(m0: seq<Byte>, was: seq<Byte>, now: seq<Byte>, img: seq<Byte>, zs: seq<Sizes>, i: nat, v: nat, a: nat,
                  addr: nat, limit: nat, click: nat, more: nat, clear: nat, end: nat)
    requires i < |zs| && Sofar(m0, was, img, zs, i, v, a, addr, limit, click)
    requires addr <= a <= end && clear <= limit && Outside(was, now, a, clear)
    requires AllLoaded(now, img, Two(zs[i], SECTOR_SIZE * v, a, click), end)
    requires SECTOR_SIZE * more == SECTOR_SIZE * v + SECTOR_SIZE + TextSectors(zs[i]) + Up(InImage(zs[i]), SECTOR_SIZE)
    requires end == DataStart(zs[i], a, click) + Up(InImage(zs[i]) + zs[i].bss + zs[i].stack, click)
    ensures Sofar(m0, now, img, zs, i + 1, more, end, addr, limit, click)
  {
    hide Layout, Two, Up, DataStart, TextSectors, InImage, Outside, AllLoaded;
    var done :| Layout(zs, 0, addr, click) == done + Layout(zs[i..], SECTOR_SIZE * v, a, click)
                && AllLoaded(was, img, done, a);
    var next := Two(zs[i], SECTOR_SIZE * v, a, click);
    OutsideTrans(m0, was, now, addr, a, clear, limit);
    AllStay(was, now, img, done, next, a, clear, end);
    LayoutStep(zs, i, SECTOR_SIZE * v, a, click);
    var rest := Layout(zs[i + 1..], SECTOR_SIZE * more, end, click);
    assert done + (next + rest) == (done + next) + rest;
  }

  lemma SofarEnd(m0: seq<Byte>, m: seq<Byte>, img: seq<Byte>, zs: seq<Sizes>, v: nat, a: nat, addr: nat, limit: nat,
                 click: nat)
    requires Sofar(m0, m, img, zs, |zs|, v, a, addr, limit, click)
    ensures AllIn(m, img, Layout(zs, 0, addr, click))
  {
    hide Two, Up, Outside, AllIn, AllLoaded;
    var done :| Layout(zs, 0, addr, click) == done + Layout(zs[|zs|..], SECTOR_SIZE * v, a, click)
      && AllLoaded(m, img, done, a);
    LayoutEnd(zs, done, m, img, SECTOR_SIZE * v, a, click);
  }

  lemma NoneLoaded(mem: seq<Byte>, img: seq<Byte>, a: nat)
    ensures AllLoaded(mem, img, [], a)
  {
  }

  lemma LayoutStep(zs: seq<Sizes>, i: nat, base: nat, a: nat, click: nat)
    requires click > 0 && i < |zs|
    ensures var z := zs[i];
            Layout(zs[i..], base, a, click) == Two(z, base, a, click) +
              Layout(zs[i + 1..], base + SECTOR_SIZE + TextSectors(z) + Up(InImage(z), SECTOR_SIZE),
                     DataStart(z, a, click) + Up(InImage(z) + z.bss + z.stack, click), click)
  {
    hide Up, Two, DataStart, Unit, TextSectors, InImage;
    assert zs[i..][1..] == zs[i + 1..] && zs[i..][0] == zs[i];
  }

  lemma LayoutEnd(zs: seq<Sizes>, done: seq<Seg>, mem: seq<Byte>, img: seq<Byte>, base: nat, a: nat, click: nat)
    requires click > 0 && AllLoaded(mem, img, done, a)
    ensures done + Layout(zs[|zs|..], base, a, click) == done
    ensures AllIn(mem, img, done)
  {
    assert zs[|zs|..] == [];
  }

  ghost predicate AllLoaded(mem: seq<Byte>, img: seq<Byte>, segs: seq<Seg>, a: nat) {
    forall j :: 0 <= j < |segs| ==> segs[j].end <= a && Loaded(mem, img, segs[j])
  }

  lemma AllStay(was: seq<Byte>, now: seq<Byte>, img: seq<Byte>, done: seq<Seg>, next: seq<Seg>, a: nat, clear: nat,
                end: nat)
    requires AllLoaded(was, img, done, a) && Outside(was, now, a, clear) && a <= end && AllLoaded(now, img, next, end)
    ensures AllLoaded(now, img, done + next, end)
  {
    hide Loaded;
    var all := done + next;
    forall j | 0 <= j < |all| ensures all[j].end <= end && Loaded(now, img, all[j]) {
      if j < |done| {
        LoadedStays(was, now, img, done[j], a, clear);
      } else {
        assert all[j] == next[j - |done|];
      }
    }
  }

  lemma OutsideTrans(first: seq<Byte>, was: seq<Byte>, now: seq<Byte>, lo: nat, a: nat, clear: nat, hi: nat)
    requires Outside(first, was, lo, hi) && Outside(was, now, a, clear) && lo <= a && clear <= hi
    ensures Outside(first, now, lo, hi)
  {
  }

  lemma LoadedStays(was: seq<Byte>, now: seq<Byte>, img: seq<Byte>, s: Seg, a: nat, clear: nat)
    requires Loaded(was, img, s) && s.end <= a && Outside(was, now, a, clear)
    ensures Loaded(now, img, s)
  {
  }

  lemma JustLoaded(mem: seq<Byte>, img: seq<Byte>, z: Sizes, v: nat, a: nat, clear: nat, click: nat)
    requires click > 0 && Unit(click) > 0 && clear == DataStart(z, a, click) + Up(InImage(z) + z.bss, click)
    requires var t, k := if z.sep then Up(z.text, Unit(click)) else 0, Up(InImage(z), Unit(click));
             var base := SECTOR_SIZE * (v + 1) + if z.sep then Up(z.text, SECTOR_SIZE) else 0;
             && (t > 0 ==> SECTOR_SIZE * (v + 1) + t <= |img|) && (k > 0 ==> base + k <= |img|)
             && Segment(mem, a, Slice(img, SECTOR_SIZE * (v + 1), t), DataStart(z, a, click))
             && Segment(mem, DataStart(z, a, click), Slice(img, base, k), clear)
    ensures var two := Two(z, SECTOR_SIZE * v, a, click);
            Loaded(mem, img, two[0]) && Loaded(mem, img, two[1]) && two[0].end <= two[1].end
  {
  }

  lemma UpGrows(x: nat, y: nat, c: nat)
    requires c > 0
    ensures Up(x, c) <= Up(x + y, c)
  {
    if Up(x + y, c) < Up(x, c) { MultipleGap(Up(x + y, c), Up(x, c), c); }
  }
}
