/** Boot images (boot/installboot.c, boot/bootimage.c): programs packed one after the other,
    each behind a header sector and with its segments padded to sectors. */
module BootImage {

  datatype Option<+T> = None | Some(value: T)

  type Byte = x: int | 0 <= x < 256

  const SECTOR_SIZE: nat := 512
  const NAME_SIZE: nat := 64       // IM_NAME_MAX + 1
  const EXEC_SIZE: nat := 48       // sizeof(struct exec)
  const A_MINHDR: nat := 32
  const A_NSYM: nat := 0x04

  /** align(n): up to a whole number of sectors. */
  function Align(n: nat): (r: nat)
    ensures n <= r < n + SECTOR_SIZE && r % SECTOR_SIZE == 0
  {
    (n + SECTOR_SIZE - 1) / SECTOR_SIZE * SECTOR_SIZE
  }

  function Zeros(n: nat): (r: seq<Byte>)
    ensures |r| == n && forall i :: 0 <= i < n ==> r[i] == 0
  {
    seq(n, i => 0)
  }

  function Padded(s: seq<Byte>): (r: seq<Byte>)
    ensures |r| == Align(|s|) && r[..|s|] == s
  {
    s + Zeros(Align(|s|) - |s|)
  }

  // ------------------------------------------------------------------- struct exec

  function Word(s: seq<Byte>, at: nat): nat
    requires at + 4 <= |s|
  {
    var b0: int, b1: int, b2: int, b3: int := s[at], s[at + 1], s[at + 2], s[at + 3];
    b0 + 0x100 * b1 + 0x1_0000 * b2 + 0x100_0000 * b3
  }

  /** Fields of an a.out header. */
  predicate Magic(h: seq<Byte>) requires |h| == EXEC_SIZE { h[0] == 1 && h[1] == 3 }
  function Flag(h: seq<Byte>, bit: nat): bool requires |h| == EXEC_SIZE && bit > 0 { h[2] / bit % 2 == 1 }
  predicate Pal(h: seq<Byte>) requires |h| == EXEC_SIZE { Flag(h, 0x02) }
  predicate Sep(h: seq<Byte>) requires |h| == EXEC_SIZE { Flag(h, 0x20) }
  function HdrLen(h: seq<Byte>): nat requires |h| == EXEC_SIZE { h[4] }
  function Text(h: seq<Byte>): nat requires |h| == EXEC_SIZE { Word(h, 8) }
  function Data(h: seq<Byte>): nat requires |h| == EXEC_SIZE { Word(h, 12) }

  /** A_NSYM and a_syms cleared: the symbol table is stripped off. */
  function Stripped(h: seq<Byte>): (r: seq<Byte>)
    requires |h| == EXEC_SIZE
    ensures |r| == EXEC_SIZE && Magic(r) == Magic(h) && HdrLen(r) == HdrLen(h)
    ensures Text(r) == Text(h) && Data(r) == Data(h)
    ensures Pal(r) == Pal(h) && Sep(r) == Sep(h)
  {
    var flags := if Flag(h, A_NSYM) then h[2] - A_NSYM else h[2];
    NsymOnly(h[2], flags);
    h[2 := flags][28 := 0][29 := 0][30 := 0][31 := 0]
  }

  lemma NsymOnly(f: Byte, g: int)
    requires g == if f / A_NSYM % 2 == 1 then f - A_NSYM else f
    ensures 0 <= g < 256 && g / 0x02 % 2 == f / 0x02 % 2 && g / 0x20 % 2 == f / 0x20 % 2
  {
  }

  /** The text as it is stored: with the header in front if page aligned. */
  function TextLen(h: seq<Byte>): nat requires |h| == EXEC_SIZE {
    Text(h) + if Pal(h) then HdrLen(h) else 0
  }

  /** proc_size(): sectors after the header sector. */
  function ProcSize(h: seq<Byte>): nat requires |h| == EXEC_SIZE {
    var len := if Sep(h) then Align(TextLen(h)) else TextLen(h);
    Align(len + Data(h)) / SECTOR_SIZE
  }

  // ---------------------------------------------------------------------- programs

  /** A program to put in an image: its name in the image and its file. */
  datatype Program = Program(name: seq<Byte>, file: seq<Byte>)

  /** The header as read_header() reads it, zeros where it is shorter than the struct. */
  function HeaderOf(file: seq<Byte>): (h: seq<Byte>)
    requires |file| >= A_MINHDR && file[4] <= |file| && A_MINHDR <= file[4] <= EXEC_SIZE
    ensures |h| == EXEC_SIZE && HdrLen(h) == file[4]
  {
    file[..file[4]] + Zeros(EXEC_SIZE - file[4])
  }

  /** read_header() and copyexec() get through the file without an error exit. */
  predicate Proper(p: Program) {
    && |p.name| == NAME_SIZE
    && |p.file| >= A_MINHDR && A_MINHDR <= p.file[4] <= EXEC_SIZE && p.file[4] <= |p.file|
    && var h := HeaderOf(p.file);
    Magic(h) && HdrLen(h) + Text(h) + Data(h) <= |p.file|
  }

  /** Text and data as they follow each other in the file, from the header on if page
      aligned. */
  function Body(p: Program): (r: seq<Byte>)
    requires Proper(p)
    ensures |r| == TextLen(HeaderOf(p.file)) + Data(HeaderOf(p.file))
  {
    var h := HeaderOf(p.file);
    p.file[if Pal(h) then 0 else HdrLen(h)..HdrLen(h) + Text(h) + Data(h)]
  }

  function ImageHeader(p: Program): (r: seq<Byte>)
    requires Proper(p)
    ensures |r| == NAME_SIZE + EXEC_SIZE
  {
    p.name + Stripped(HeaderOf(p.file))
  }

  /** A body of t bytes of text and the rest data, padded together or apart. */
  function Pack(t: nat, sep: bool, body: seq<Byte>): seq<Byte>
    requires t <= |body|
  {
    if sep then Padded(body[..t]) + Padded(body[t..]) else Padded(body)
  }

  /** The segments, padded. */
  function Packed(h: seq<Byte>, body: seq<Byte>): seq<Byte>
    requires |h| == EXEC_SIZE && |body| == TextLen(h) + Data(h)
  {
    Pack(TextLen(h), Sep(h), body)
  }

  /** What the image holds for one program. */
  function ImageOf(p: Program): seq<Byte>
    requires Proper(p)
  {
    Padded(ImageHeader(p)) + Packed(HeaderOf(p.file), Body(p))
  }

  function Image(ps: seq<Program>): seq<Byte>
    requires forall i :: 0 <= i < |ps| ==> Proper(ps[i])
  {
    if ps == [] then [] else ImageOf(ps[0]) + Image(ps[1..])
  }

  /** proc_size() is the number of sectors the writer puts after the header. */
  lemma ProcSizeIsRight(p: Program)
    requires Proper(p)
    ensures |ImageOf(p)| == SECTOR_SIZE * (1 + ProcSize(HeaderOf(p.file)))
    ensures ProcSize(Stripped(HeaderOf(p.file))) == ProcSize(HeaderOf(p.file))
  {
    hide HeaderOf, Stripped, Packed, Word, Flag, Body, Padded;
    var h := HeaderOf(p.file);
    PackedSize(h, Body(p));
    assert |Padded(ImageHeader(p))| == SECTOR_SIZE;
  }

  lemma PackedSize(h: seq<Byte>, body: seq<Byte>)
    requires |h| == EXEC_SIZE && |body| == TextLen(h) + Data(h)
    ensures |Packed(h, body)| == SECTOR_SIZE * ProcSize(h)
  {
    hide TextLen, Data, Flag;
    AlignSum(TextLen(h), Data(h));
  }

  lemma AlignSum(a: nat, b: nat)
    ensures Align(Align(a) + b) == Align(a) + Align(b)
  {
    var q := (a + SECTOR_SIZE - 1) / SECTOR_SIZE;
    assert (q * SECTOR_SIZE + b + SECTOR_SIZE - 1) / SECTOR_SIZE == q + (b + SECTOR_SIZE - 1) / SECTOR_SIZE;
  }

  // -------------------------------------------------------------------- extraction

  /** A file extract_image() writes. */
  datatype File = File(name: seq<Byte>, content: seq<Byte>)

  /** What extraction gives back: text and data byte for byte, behind the stripped header
      unless the header is part of the text. */
  function Restored(p: Program): File
    requires Proper(p)
  {
    var h := HeaderOf(p.file);
    File(p.name, (if Pal(h) then [] else Stripped(h)[..HdrLen(h)]) + Body(p))
  }

  function AllRestored(ps: seq<Program>): seq<File>
    requires forall i :: 0 <= i < |ps| ==> Proper(ps[i])
  {
    if ps == [] then [] else [Restored(ps[0])] + AllRestored(ps[1..])
  }

  // ------------------------------------------------------------------- the programs

  /** copyexec(): n bytes of the file from position at, and padding.  None: premature end. */
  method CopyExec(file: seq<Byte>, at: nat, n: nat, image: seq<Byte>) returns (out: Option<seq<Byte>>)
    requires at <= |file|
    ensures out == if at + n <= |file| then Some(image + Padded(file[at..at + n])) else None
  {
    var pad := Align(n) - n;
    var i, img := 0, image;
    while i < n
      invariant 0 <= i <= n && at + i <= |file|
      invariant img == image + file[at..at + i]
    {
      if at + i == |file| {
        return None;
      }
      img := img + [file[at + i]];
      i := i + 1;
    }
    var z := 0;
    ghost var full := img;
    while z < pad
      invariant 0 <= z <= pad
      invariant img == full + Zeros(z)
    {
      img := img + [0];
      z := z + 1;
    }
    assert img == image + Padded(file[at..at + n]);
    return Some(img);
  }

  /** read_header() of a file; None where installboot gives up. */
  method ReadHeader(file: seq<Byte>) returns (h: Option<seq<Byte>>)
    ensures h.Some? <==>
              |file| >= A_MINHDR && A_MINHDR <= file[4] <= EXEC_SIZE && file[4] <= |file| && Magic(HeaderOf(file))
    ensures h.Some? ==> h.value == HeaderOf(file)
  {
    if |file| < A_MINHDR || file[4] < A_MINHDR || file[4] > EXEC_SIZE || file[4] > |file| {
      return None;
    }
    var x := HeaderOf(file);
    if x[0] != 1 || x[1] != 3 {
      return None;
    }
    return Some(x);
  }

  /** Both segments: apart for separate I&D, together otherwise. */
  method CopyBody(file: seq<Byte>, at: nat, t: nat, d: nat, sep: bool,
                  image: seq<Byte>) returns (out: Option<seq<Byte>>)
    requires at <= |file|
    ensures out == if at + t + d <= |file| then Some(image + Pack(t, sep, file[at..at + t + d])) else None
  {
    if at + t + d <= |file| { PackTwo(file, at, t, d); }
    hide Padded, Align, Pack, Zeros;
    if !sep {
      out := CopyExec(file, at, t + d, image);
      return;
    }
    var one := CopyExec(file, at, t, image);
    if one.None? {
      return None;
    }
    out := CopyExec(file, at + t, d, one.value);
    if out.Some? { Assoc(image, Padded(file[at..at + t]), Padded(file[at + t..at + t + d])); }
  }

  lemma PackTwo(file: seq<Byte>, at: nat, t: nat, d: nat)
    requires at + t + d <= |file|
    ensures Pack(t, true, file[at..at + t + d]) == Padded(file[at..at + t]) + Padded(file[at + t..at + t + d])
    ensures Pack(t, false, file[at..at + t + d]) == Padded(file[at..at + t + d])
  {
    var body := file[at..at + t + d];
    assert body[..t] == file[at..at + t] && body[t..] == file[at + t..at + t + d];
  }

  lemma Assoc(x: seq<Byte>, y: seq<Byte>, z: seq<Byte>)
    ensures x + y + z == x + (y + z)
  {
  }

  /** One turn of make_image(). */
  method AddProgram(p: Program, image: seq<Byte>) returns (out: Option<seq<Byte>>)
    requires |p.name| == NAME_SIZE
    ensures out == if Proper(p) then Some(image + ImageOf(p)) else None
  {
    hide HeaderOf, Text, Data, Flag, Stripped, Pack, ImageOf;
    var header := ReadHeader(p.file);
    if header.None? {
      return None;
    }
    var h := header.value;
    ImageParts(p, h);
    hide Stripped, HeaderOf, HdrLen, TextLen, Data, Flag, Pack, Proper, ImageOf, Magic, Zeros;
    var ihdr := p.name + Stripped(h);
    var sector := ihdr + Zeros(SECTOR_SIZE - |ihdr|);
    var at, t, d := if Pal(h) then 0 else HdrLen(h), TextLen(h), Data(h);
    out := CopyBody(p.file, at, t, d, Sep(h), image + sector);
    if out.Some? { Assoc(image, sector, Pack(t, Sep(h), p.file[at..at + t + d])); }
  }

  /** When a program will do, and what is written for it. */
  lemma ImageParts(p: Program, h: seq<Byte>)
    requires |p.name| == NAME_SIZE && |p.file| >= A_MINHDR
    requires A_MINHDR <= p.file[4] <= EXEC_SIZE && p.file[4] <= |p.file|
    requires h == HeaderOf(p.file) && Magic(h)
    ensures var at, t, d := if Pal(h) then 0 else HdrLen(h), TextLen(h), Data(h);
            && at <= |p.file| && (Proper(p) <==> at + t + d <= |p.file|)
            && (Proper(p) ==> var ihdr := p.name + Stripped(h);
                  ImageOf(p) == (ihdr + Zeros(SECTOR_SIZE - |ihdr|)) + Pack(t, Sep(h), p.file[at..at + t + d]))
  {
    hide Text, Data, Flag, Pack;
  }

  /** make_image(): the image of all the programs, or nothing if one of them will not do. */
  method MakeImage(ps: seq<Program>) returns (image: Option<seq<Byte>>)
    requires forall i :: 0 <= i < |ps| ==> |ps[i].name| == NAME_SIZE
    ensures image.Some? <==> forall i :: 0 <= i < |ps| ==> Proper(ps[i])
    ensures image.Some? ==> image.value == Image(ps)
  {
    hide Proper, ImageOf;
    var k, img := 0, [];
    assert ps[0..] == ps;
    while k < |ps|
      invariant 0 <= k <= |ps| && forall i :: 0 <= i < k ==> Proper(ps[i])
      invariant (forall i :: 0 <= i < |ps| ==> Proper(ps[i])) ==> Image(ps) == img + Image(ps[k..])
    {
      var out := AddProgram(ps[k], img);
      if out.None? {
        return None;
      }
      assert ps[k..][1..] == ps[k + 1..];
      img := out.value;
      k := k + 1;
    }
    return Some(img);
  }

  /** extractexec(): count bytes in whole sectors.  None: unexpected end of the image. */
  method ExtractExec(image: seq<Byte>, at: nat, count: nat, file: seq<Byte>) returns (out: Option<seq<Byte>>)
    requires at <= |image|
    ensures out == if at + Align(count) <= |image| then Some(file + image[at..at + count]) else None
  {
    var left: int, pos, f := count, at, file;
    while left > 0
      invariant at <= pos <= |image| && (pos - at) % SECTOR_SIZE == 0 && left == count - (pos - at)
      invariant f == file + image[at..if left >= 0 then pos else at + count]
      invariant left + SECTOR_SIZE > 0 && (left <= 0 ==> at + count <= |image|)
      decreases left
    {
      AlignSteps(pos - at, left);
      if pos + SECTOR_SIZE > |image| {
        return None;
      }
      var n := if left < SECTOR_SIZE then left else SECTOR_SIZE;
      f := f + image[pos..pos + n];
      pos := pos + SECTOR_SIZE;
      left := left - SECTOR_SIZE;
    }
    AlignDone(pos - at, count);
    return Some(f);
  }

  lemma AlignSteps(done: nat, left: nat)
    requires done % SECTOR_SIZE == 0 && left > 0
    ensures Align(done + left) >= done + SECTOR_SIZE
  {
  }

  lemma AlignDone(done: nat, count: nat)
    requires done % SECTOR_SIZE == 0 && count <= done < count + SECTOR_SIZE
    ensures Align(count) == done
  {
  }

  /** Where the segments of a body lie. */
  lemma PackSlices(image: seq<Byte>, at: nat, t: nat, d: nat, sep: bool, body: seq<Byte>, rest: seq<Byte>)
    requires |body| == t + d && at <= |image| && image[at..] == Pack(t, sep, body) + rest
    ensures if sep then
              && at + Align(t) + Align(d) <= |image|
              && image[at..at + t] == body[..t] && image[at + Align(t)..at + Align(t) + d] == body[t..]
              && image[at + Align(t) + Align(d)..] == rest
            else
              && at + Align(t + d) <= |image|
              && image[at..at + t + d] == body && image[at + Align(t + d)..] == rest
  {
    hide Align, Zeros;
    var tail := image[at..];
    if sep {
      var a, b := Padded(body[..t]), Padded(body[t..]);
      assert tail == a + (b + rest);
      Slices(image, at, a, b + rest, t);
      Slices(image, at + |a|, b, rest, d);
    } else {
      Slices(image, at, Padded(body), rest, t + d);
    }
  }

  lemma Slices(image: seq<Byte>, at: nat, a: seq<Byte>, rest: seq<Byte>, n: nat)
    requires at <= |image| && image[at..] == a + rest && n <= |a|
    ensures at + |a| <= |image| && image[at..at + n] == a[..n] && image[at + |a|..] == rest
  {
    assert image[at..][..n] == image[at..at + n];
    assert image[at..][|a|..] == image[at + |a|..];
    assert (a + rest)[..n] == a[..n] && (a + rest)[|a|..] == rest;
  }

  /** Both segments of a program in an image, and where they end. */
  method ExtractBody(image: seq<Byte>, at: nat, t: nat, d: nat, sep: bool, file: seq<Byte>,
                     ghost body: seq<Byte>, ghost rest: seq<Byte>) returns (out: Option<(seq<Byte>, nat)>)
    requires at <= |image|
    ensures out.Some? ==> at <= out.value.1 <= |image|
    ensures |body| == t + d && image[at..] == Pack(t, sep, body) + rest ==>
              out.Some? && out.value.0 == file + body && image[out.value.1..] == rest
  {
    hide Pack, Align, Padded, Zeros;
    ghost var made := |body| == t + d && image[at..] == Pack(t, sep, body) + rest;
    if made { PackSlices(image, at, t, d, sep, body, rest); }
    if sep {
      var one := ExtractExec(image, at, t, file);
      if one.None? {
        return None;
      }
      var two := ExtractExec(image, at + Align(t), d, one.value);
      if two.None? {
        return None;
      }
      if made {
        Assoc(file, body[..t], body[t..]);
        assert body[..t] + body[t..] == body;
      }
      return Some((two.value, at + Align(t) + Align(d)));
    }
    var one := ExtractExec(image, at, t + d, file);
    if one.None? {
      return None;
    }
    return Some((one.value, at + Align(t + d)));
  }

  /** One turn of extract_image(): the program at position at, and where the next one is. */
  method ExtractOne(image: seq<Byte>, at: nat, ghost p: Program,
                    ghost rest: seq<Byte>) returns (out: Option<(File, nat)>)
    requires at <= |image|
    ensures out.Some? ==> at < out.value.1 <= |image|
    ensures Proper(p) && image[at..] == ImageOf(p) + rest ==>
              out.Some? && out.value.0 == Restored(p) && image[out.value.1..] == rest
  {
    ghost var made := Proper(p) && image[at..] == ImageOf(p) + rest;
    if made { HeaderSector(image, at, p, rest); }
    hide Stripped, HeaderOf, Text, Data, Flag, ImageOf, Pack;
    if at + SECTOR_SIZE > |image| {
      return None;
    }
    var name, h := image[at..at + NAME_SIZE], image[at + NAME_SIZE..at + NAME_SIZE + EXEC_SIZE];
    if HdrLen(h) < A_MINHDR || HdrLen(h) > EXEC_SIZE || h[0] != 1 || h[1] != 3 {
      return None;
    }
    var file := if Pal(h) then [] else h[..HdrLen(h)];
    var body := ExtractBody(image, at + SECTOR_SIZE, TextLen(h), Data(h), Sep(h), file,
      if made then Body(p) else [], rest);
    if body.None? {
      return None;
    }
    return Some((File(name, body.value.0), body.value.1));
  }

  /** What the header sector of a made image says. */
  lemma HeaderSector(image: seq<Byte>, at: nat, p: Program, rest: seq<Byte>)
    requires Proper(p) && at <= |image| && image[at..] == ImageOf(p) + rest
    ensures var h := Stripped(HeaderOf(p.file));
            && at + SECTOR_SIZE <= |image| && image[at..at + NAME_SIZE] == p.name
            && image[at + NAME_SIZE..at + NAME_SIZE + EXEC_SIZE] == h
            && A_MINHDR <= HdrLen(h) <= EXEC_SIZE && Magic(h) && |Body(p)| == TextLen(h) + Data(h)
            && Restored(p) == File(p.name, (if Pal(h) then [] else h[..HdrLen(h)]) + Body(p))
            && image[at + SECTOR_SIZE..] == Pack(TextLen(h), Sep(h), Body(p)) + rest
  {
    hide Stripped, HeaderOf, Text, Data, Flag, Pack, Padded, Zeros;
    var h := Stripped(HeaderOf(p.file));
    var ihdr := ImageHeader(p);
    assert |Padded(ihdr)| == SECTOR_SIZE;
    var packed := Packed(HeaderOf(p.file), Body(p));
    assert image[at..] == Padded(ihdr) + (packed + rest);
    Slices(image, at, Padded(ihdr), packed + rest, |ihdr|);
    assert image[at..at + |ihdr|] == ihdr;
    assert ihdr[..NAME_SIZE] == p.name && ihdr[NAME_SIZE..] == h;
    assert image[at..at + NAME_SIZE] == image[at..at + |ihdr|][..NAME_SIZE];
    assert image[at + NAME_SIZE..at + |ihdr|] == image[at..at + |ihdr|][NAME_SIZE..];
  }

  /** extract_image() on an image that make_image() made of ps gives every program back and
      uses the image up to the last byte. */
  method ExtractImage(image: seq<Byte>, ghost ps: seq<Program>) returns (files: Option<seq<File>>)
    requires forall i :: 0 <= i < |ps| ==> Proper(ps[i])
    ensures image == Image(ps) ==> files == Some(AllRestored(ps))
  {
    hide Proper, ImageOf, Restored;
    var len, at, fs := |image|, 0, [];
    ghost var k := 0;
    assert image[0..] == image && ps[0..] == ps;
    while len != 0
      invariant 0 <= at <= |image| && len == |image| - at && 0 <= k <= |ps|
      invariant image == Image(ps) ==> image[at..] == Image(ps[k..]) && AllRestored(ps) == fs + AllRestored(ps[k..])
      decreases len
    {
      ghost var made := image == Image(ps);
      if made { assert k < |ps|; }
      ghost var p, rest := if k < |ps| then ps[k] else Program([], []), if k < |ps| then Image(ps[k + 1..]) else [];
      assert k < |ps| ==> ps[k..][1..] == ps[k + 1..];
      var out := ExtractOne(image, at, p, rest);
      if out.None? {
        return None;
      }
      fs := fs + [out.value.0];
      len, at := len - (out.value.1 - at), out.value.1;
      k := if k < |ps| then k + 1 else k;
    }
    ImageNotEmpty(ps[k..]);
    assert k == |ps| ==> fs + AllRestored(ps[k..]) == fs;
    return Some(fs);
  }

  lemma ImageNotEmpty(ps: seq<Program>)
    requires forall i :: 0 <= i < |ps| ==> Proper(ps[i])
    ensures ps != [] ==> Image(ps) != []
  {
    if ps != [] { ProcSizeIsRight(ps[0]); }
  }
}
