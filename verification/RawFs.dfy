/** Reading files off a raw MINIX file system (boot/rawfs.c) and sectors off an image
    (boot/bootimage.c): both remember what they read last. */
module RawFs {
  import opened BootImage

  // ------------------------------------------------------------ blocks of a file

  /** Parameters r_super() sets. */
  datatype Fs = Fs(dzones: nat, indirects: nat, zoneShift: nat, blockSize: nat)

  /** The part of an inode that is looked at: i_size and i_zone. */
  datatype Inode = Inode(size: nat, zones: seq<nat>)

  predicate FsOk(fs: Fs) { fs.dzones > 0 && fs.indirects > 0 }

  predicate InodeOk(fs: Fs, f: Inode) { |f.zones| >= fs.dzones + 2 }

  function Pow2(n: nat): (r: nat)
    ensures r > 0
  {
    if n == 0 then 1 else 2 * Pow2(n - 1)
  }

  /** The zone of a file that a block of it is in, and which block of that zone it is. */
  function ZoneNo(fs: Fs, virblk: nat): nat {
    Quotient(virblk, Pow2(fs.zoneShift));
    virblk / Pow2(fs.zoneShift)
  }

  function ZoneIndex(fs: Fs, virblk: nat): nat { virblk % Pow2(fs.zoneShift) }

  lemma Quotient(x: nat, p: nat)
    requires p > 0
    ensures x / p >= 0 && x == x / p * p + x % p
  {
  }

  /** Zone z starts at this block. */
  function Shl(fs: Fs, z: nat): nat { z * Pow2(fs.zoneShift) }

  /** Where the number of the n-th zone of a file is kept. */
  datatype Slot = Direct(i: nat) | Single(i: nat) | Double(i: nat, j: nat)

  function SlotOf(fs: Fs, zone: nat): Slot
    requires FsOk(fs)
  {
    if zone < fs.dzones then Direct(zone)
    else
      var z := zone - fs.dzones;
      if z < fs.indirects then Single(z)
      else Double((z - fs.indirects) / fs.indirects, (z - fs.indirects) % fs.indirects)
  }

  /** Different zones are kept in different slots. */
  lemma SlotsDiffer(fs: Fs, a: nat, b: nat)
    requires FsOk(fs) && SlotOf(fs, a) == SlotOf(fs, b)
    ensures a == b
  {
    var n := fs.indirects;
    if SlotOf(fs, a).Double? {
      var x, y := a - fs.dzones - n, b - fs.dzones - n;
      assert x == x / n * n + x % n && y == y / n * n + y % n;
    }
  }

  /** The zone number in a slot, read straight from the disk; None for a hole above the last
      level.  disk gives the zone numbers in a block. */
  function ZoneIn(fs: Fs, disk: nat -> seq<nat>, f: Inode, s: Slot): Option<nat>
    requires InodeOk(fs, f) && (s.Direct? ==> s.i < fs.dzones)
  {
    match s
    case Direct(i) => Some(f.zones[i])
    case Single(j) =>
      var ind := f.zones[fs.dzones];
      if ind == 0 || j >= |disk(Shl(fs, ind))| then None else Some(disk(Shl(fs, ind))[j])
    case Double(i, j) =>
      var dind := f.zones[fs.dzones + 1];
      if dind == 0 || i >= |disk(Shl(fs, dind))| then None
      else
        var ind := disk(Shl(fs, dind))[i];
        if ind == 0 || j >= |disk(Shl(fs, ind))| then None else Some(disk(Shl(fs, ind))[j])
  }

  /** The block of the disk that block virblk of the file is in: -1 past the end, 0 where an
      indirect block is missing. */
  function Block(fs: Fs, disk: nat -> seq<nat>, f: Inode, virblk: nat): int
    requires FsOk(fs) && InodeOk(fs, f)
  {
    if fs.blockSize == 0 || virblk * fs.blockSize >= f.size then -1
    else
      var z := ZoneIn(fs, disk, f, SlotOf(fs, ZoneNo(fs, virblk)));
      if z.None? then 0 else Shl(fs, z.value) + ZoneIndex(fs, virblk)
  }

  /** Indirect blocks are as long as the file needs them. */
  ghost predicate Deep(fs: Fs, disk: nat -> seq<nat>, f: Inode, virblk: nat)
    requires FsOk(fs) && InodeOk(fs, f)
  {
    && (forall b: nat :: |disk(b)| >= fs.indirects)
    && var s := SlotOf(fs, ZoneNo(fs, virblk)); (s.Double? ==> s.i < fs.indirects)
  }

  /** For a hole, a zone number of 0, the answer is 0 exactly if the block is the first of its
      zone. */
  lemma HoleExact(fs: Fs, disk: nat -> seq<nat>, f: Inode, virblk: nat)
    requires FsOk(fs) && InodeOk(fs, f) && fs.blockSize > 0 && virblk * fs.blockSize < f.size
    requires ZoneIn(fs, disk, f, SlotOf(fs, ZoneNo(fs, virblk))) == Some(0)
    ensures Block(fs, disk, f, virblk) == 0 <==> ZoneIndex(fs, virblk) == 0
  {
    hide SlotOf, ZoneNo, ZoneIndex, ZoneIn;
    assert Shl(fs, 0) == 0;
  }

  /** With two blocks to a zone, block 1 of a file whose first zone is missing. */
  lemma HoleMistaken(disk: nat -> seq<nat>)
    ensures Block(Fs(7, 256, 1, 1024), disk, Inode(4096, [0, 0, 0, 0, 0, 0, 0, 0, 0]), 1) == 1
  {
    assert Pow2(1) == 2 by { assert Pow2(0) == 1; }
    var fs := Fs(7, 256, 1, 1024);
    assert ZoneNo(fs, 1) == 0 && ZoneIndex(fs, 1) == 1;
  }

  class File {
    const fs: Fs
    const disk: nat -> seq<nat>
    var curfil: Inode
    var indir: seq<nat>
    var dindir: seq<nat>
    var aIndir: nat
    var aDindir: nat

    /** The buffers hold the blocks they are said to hold; 0 stands for none. */
    ghost predicate Valid()
      reads this
    {
      && FsOk(fs) && InodeOk(fs, curfil)
      && (aIndir != 0 ==> indir == disk(aIndir)) && (aDindir != 0 ==> dindir == disk(aDindir))
    }

    constructor (fs: Fs, disk: nat -> seq<nat>, f: Inode)
      requires FsOk(fs) && InodeOk(fs, f)
      ensures Valid() && this.fs == fs && this.disk == disk && curfil == f
    {
      this.fs, this.disk, curfil := fs, disk, f;
      indir, dindir, aIndir, aDindir := [], [], 0, 0;
    }

    /** r_stat(): another file is looked at. */
    method Stat(f: Inode)
      requires Valid() && InodeOk(fs, f)
      modifies this
      ensures Valid() && curfil == f
    {
      curfil := f;
      aIndir, aDindir := 0, 0;
    }

    /** r_vir2abs(): what a walk from the inode would find, whatever was asked before. */
    method Vir2Abs(virblk: nat) returns (r: int)
      requires Valid() && Deep(fs, disk, curfil, virblk)
      modifies this`indir, this`dindir, this`aIndir, this`aDindir
      ensures Valid() && r == Block(fs, disk, curfil, virblk)
    {
      if fs.blockSize == 0 {
        return -1;
      }
      if virblk * fs.blockSize >= curfil.size {
        return -1;
      }
      var zone := ZoneNo(fs, virblk);
      var zoneIndex := virblk - Shl(fs, zone);
      IndexIs(fs, virblk);
      if zone < fs.dzones {
        return Shl(fs, curfil.zones[zone]) + zoneIndex;
      }
      zone := zone - fs.dzones;
      var indZone;
      if zone < fs.indirects {
        indZone := curfil.zones[fs.dzones];
      } else {
        indZone := curfil.zones[fs.dzones + 1];
        if indZone == 0 {
          return 0;
        }
        var z := Shl(fs, indZone);
        if aDindir != z {
          dindir, aDindir := disk(z), z;
        }
        NotZero(fs, indZone);
        zone := zone - fs.indirects;
        var i := zone / fs.indirects;
        indZone := dindir[i];
        zone := zone % fs.indirects;
      }
      if indZone == 0 {
        return 0;
      }
      var z := Shl(fs, indZone);
      if aIndir != z {
        indir, aIndir := disk(z), z;
      }
      NotZero(fs, indZone);
      return Shl(fs, indir[zone]) + zoneIndex;
    }
  }

  lemma IndexIs(fs: Fs, virblk: nat)
    ensures virblk - Shl(fs, ZoneNo(fs, virblk)) == ZoneIndex(fs, virblk)
  {
    Quotient(virblk, Pow2(fs.zoneShift));
  }

  /** A zone that is not 0 does not start at block 0. */
  lemma NotZero(fs: Fs, zone: nat)
    requires zone > 0
    ensures Shl(fs, zone) > 0
  {
    var p := Pow2(fs.zoneShift);
    assert zone * p >= p by { Grows(zone, p); }
  }

  lemma Grows(a: nat, b: nat)
    requires a > 0
    ensures a * b >= b
  {
  }

  // ------------------------------------------------------------- the track buffer

  const SECBUFS: nat := 16

  /** Where sectors are and what is in them: vir2sec may fail, and gives 0 for a hole; a
      boundary ends a track; reading may fail. */
  datatype Device = Device(
    vir2sec: nat -> Option<nat>, sector: nat -> seq<Byte>, boundary: nat -> bool, fails: (nat, nat) -> bool)

  class Track {
    const dev: Device
    var buf: seq<seq<Byte>>
    var count: nat
    var bufsec: nat

    /** The first count sectors in the buffer are those of the disk from bufsec on. */
    ghost predicate Valid()
      reads this
    {
      count <= |buf| == SECBUFS && forall i :: 0 <= i < count ==> buf[i] == dev.sector(bufsec + i)
    }

    constructor (dev: Device)
      ensures Valid() && this.dev == dev
    {
      this.dev := dev;
      buf, count, bufsec := seq(SECBUFS, i => []), 0, 0;
    }

    /** get_sector(): the sector of the disk, or zeros for a hole; None if it cannot be found or
        read. */
    method GetSector(vsec: nat) returns (r: Option<seq<Byte>>)
      requires Valid()
      modifies this`buf, this`count, this`bufsec
      ensures Valid()
      ensures dev.vir2sec(vsec).None? ==> r.None?
      ensures dev.vir2sec(vsec) == Some(0) ==> r == Some(Zeros(SECTOR_SIZE))
      ensures r.Some? && dev.vir2sec(vsec) != Some(0) ==>
                dev.vir2sec(vsec).Some? && r.value == dev.sector(dev.vir2sec(vsec).value)
      ensures r.None? && dev.vir2sec(vsec).Some? ==>
                exists n :: 1 <= n <= SECBUFS && dev.fails(dev.vir2sec(vsec).value, n)
    {
      if vsec == 0 {
        count := 0;
      }
      var s := dev.vir2sec(vsec);
      if s.None? {
        return None;
      }
      var sec := s.value;
      if sec == 0 {
        count := 0;
        buf := buf[0 := Zeros(SECTOR_SIZE)];
        return Some(buf[0]);
      }
      if bufsec <= sec && sec - bufsec < count {
        return Some(buf[sec - bufsec]);
      }
      bufsec := sec;
      var v, n := vsec, 1;
      while n < SECBUFS && !dev.boundary(bufsec + n)
        invariant 1 <= n <= SECBUFS
      {
        v := v + 1;
        var next := dev.vir2sec(v);
        if next.None? || next.value != bufsec + n {
          break;
        }
        n := n + 1;
      }
      if dev.fails(bufsec, n) {
        count := 0;
        return None;
      }
      count := n;
      var was, first := buf, bufsec;
      buf := seq(SECBUFS, i requires 0 <= i < SECBUFS => if i < n then dev.sector(first + i) else was[i]);
      return Some(buf[0]);
    }
  }
}
