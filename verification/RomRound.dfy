/** What the packer writes, the loader reads: tools/rp6502.py against src/core/rom/pump.c and
    src/core/rom/rom.c. */
module RomRoundTrip {
  import opened Common
  import opened MonitorText
  import opened RomText
  import opened RomLoader
  import opened RomImage

  const RAMS := 0x20000  // RAM and XRAM

  // ---------------- lines ----------------

  /** Text that neither ends a line nor a C string. */
  predicate Inline(s: Text) { forall i :: 0 <= i < |s| ==> s[i] != 0 && s[i] != LF }

  lemma {:induction false} InlineString(s: Text)
    requires Inline(s)
    ensures CString(s) == s
    decreases |s|
  {
    if s != [] {
      InlineString(s[1..]);
      assert s == [s[0]] + s[1..];
    }
  }

  /** Text that ends no line. */
  predicate OneLine(s: Text) { forall i :: 0 <= i < |s| ==> s[i] != LF }

  lemma {:induction false} LineEnds(s: Text, e: Text)
    requires OneLine(s)
    ensures LineEnd(s + [CR, LF] + e) == |s| + 1
    decreases |s|
  {
    var w := s + [CR, LF] + e;
    if s == [] {
      assert w == [CR, LF] + e && w[1..] == [LF] + e;
      assert LineEnd(w[1..]) == 0;
    } else {
      assert w[1..] == s[1..] + [CR, LF] + e;
      LineEnds(s[1..], e);
    }
  }

  /** A line of the file, when it fits the reader's buffer. */
  lemma LineAt(img: seq<u8>, pos: nat, cap: nat, s: Text, e: seq<u8>)
    requires pos <= |img| && pos < SEEK_MAX && img[pos..] == s + [CR, LF] + e && Inline(s) && |s| + 2 < cap
    ensures Gets(img, pos, cap) == Some(Line(s, pos + |s| + 2))
    ensures img[pos + |s| + 2..] == e
  {
    var size := if pos + cap - 1 <= |img| then cap - 1 else |img| - pos;
    var block := img[pos..pos + size];
    var e' := e[..size - |s| - 2];
    assert |img[pos..]| == |s| + 2 + |e|;
    assert block == img[pos..][..size];
    assert block == s + [CR, LF] + e';
    LineEnds(s, e');
    assert block[|s|] == CR && block[..|s|] == s;
    assert img[pos + |s| + 2..] == img[pos..][|s| + 2..];
  }

  /** A line starts as the file does, up to the line's end. */
  lemma LineStarts(img: seq<u8>, pos: nat, cap: nat, s: Text, e: seq<u8>)
    requires pos <= |img| && pos < SEEK_MAX && img[pos..] == s + e && Inline(s) && 0 < |s| < cap - 1 && s[|s| - 1] != CR
    ensures Gets(img, pos, cap).Some?
    ensures var t := Gets(img, pos, cap).value.text;
      s <= t && (|t| > |s| ==> e != [] && t[|s|] == e[0])
  {
    var size := if pos + cap - 1 <= |img| then cap - 1 else |img| - pos;
    assert |img[pos..]| == |s| + |e|;
    var z := e[..size - |s|];
    assert img[pos..pos + size] == img[pos..][..size] == s + z;
    StartEnds(s, z);
    BlockText(img, pos, cap, s + z);
    hide *;
    StartKept(s, z, TextLength(s + z));
  }

  /** How much of a block is the text of its first line. */
  function TextLength(block: Text): (n: nat)
    ensures n <= |block|
  {
    var i := LineEnd(block);
    if i > 0 && block[i - 1] == CR then i - 1 else i
  }

  lemma BlockText(img: seq<u8>, pos: nat, cap: nat, block: Text)
    requires cap > 1 && pos < |img| && pos < SEEK_MAX
    requires block == img[pos..if pos + cap - 1 <= |img| then pos + cap - 1 else |img|]
    ensures Gets(img, pos, cap).Some? && Gets(img, pos, cap).value.text == block[..TextLength(block)]
  {
    hide LineEnd;
  }

  lemma StartEnds(s: Text, z: Text)
    requires Inline(s) && s != [] && s[|s| - 1] != CR
    ensures TextLength(s + z) >= |s|
  {
    assert forall k :: 0 <= k < |s| ==> (s + z)[k] == s[k] != LF;
  }

  lemma StartKept(s: Text, z: Text, n: nat)
    requires |s| <= n <= |s + z|
    ensures s <= (s + z)[..n] && (n > |s| ==> z != [] && (s + z)[..n][|s|] == z[0])
  {
    assert (s + z)[..n][..|s|] == s;
  }

  lemma {:induction false} StringStarts(s: Text, e: Text)
    requires Inline(s)
    ensures CString(s + e) == s + CString(e)
    decreases |s|
  {
    if s == [] {
      assert s + e == e;
    } else {
      assert (s + e)[1..] == s[1..] + e;
      StringStarts(s[1..], e);
    }
  }

  // ---------------- chunks ----------------

  predicate Loadable(c: Chunk) { ChunkOk(c) && c.addr + |c.data| <= RAMS }

  lemma ChunkHeadShape(c: Chunk, n: int)
    requires Loadable(c) && 0 <= n < WORD
    ensures Inline(ChunkHead(c, n)) && |ChunkHead(c, n)| <= 21
    ensures ParseRecord(ChunkHead(c, n)) == RecordOk(Record(c.addr, |c.data|, n))
  {
    hide Hex, ParseUint, Inline, ChunkOk;
    ChunkHeadInline(c, n);
    var z := [SPACE, DOLLAR] + Hex(n, 8);
    var y := [SPACE, DOLLAR] + Hex(|c.data|, 3) + z;
    var s := ChunkHead(c, n);
    assert s == [DOLLAR] + Hex(c.addr, 4) + y;
    InlineString(s);
    ThreeNumbers(c.addr, 4, |c.data|, 3, n);
    ChunkFits(c, n);
  }

  lemma ChunkHeadInline(c: Chunk, n: int)
    requires Loadable(c) && 0 <= n < WORD
    ensures Inline(ChunkHead(c, n)) && 0 < |ChunkHead(c, n)| <= 21 && ChunkHead(c, n)[0] == DOLLAR
  {
    PowWord();
    assert Pow16(3) == 4096 && Pow16(5) == 16 * 16 * Pow16(3);
    HexLength(c.addr, 4, 5);
    HexLength(|c.data|, 3, 3);
    HexLength(n, 8, 8);
    hide Hex;
    assert Inline(Hex(c.addr, 4)) && Inline(Hex(|c.data|, 3)) && Inline(Hex(n, 8));
  }

  lemma ChunkFits(c: Chunk, n: int)
    requires Loadable(c)
    ensures Fits(Record(c.addr, |c.data|, n))
  {
    PageFits(c);
  }

  lemma PageFits(c: Chunk)
    requires Loadable(c)
    ensures c.addr < 0x10000 ==> |c.data| <= 0x10000 - c.addr
  {
  }

  /** Three numbers as a chunk's header has them. */
  lemma ThreeNumbers(a: nat, wa: nat, b: nat, wb: nat, c: nat)
    requires a < WORD && b < WORD && c < WORD && wa > 0 && wb > 0
    ensures var z := [SPACE, DOLLAR] + Hex(c, 8);
      var y := [SPACE, DOLLAR] + Hex(b, wb) + z;
      var s := [DOLLAR] + Hex(a, wa) + y;
      && ParseUint(s) == Some(Number(a, y[1..])) && ParseUint(y[1..]) == Some(Number(b, z[1..]))
      && ParseUint(z[1..]) == Some(Number(c, []))
  {
    hide ParseUint, Hex;
    var z := [SPACE, DOLLAR] + Hex(c, 8);
    var y := [SPACE, DOLLAR] + Hex(b, wb) + z;
    HexBack(a, wa, y);
    assert y[1..] == [DOLLAR] + Hex(b, wb) + z;
    HexBack(b, wb, z);
    assert z[1..] == [DOLLAR] + Hex(c, 8) + [];
    HexBack(c, 8, []);
    assert Trim(y) == y[1..] && Trim(z) == z[1..];
  }

  /** The pump reads the chunk that is there. */
  lemma NextChunk(img: seq<u8>, p: Pump, c: Chunk, e: seq<u8>, crc: Crc)
    requires Loadable(c) && 0 <= crc(c.data) < WORD && p.pos <= |img| && img[p.pos..] == ChunkBytes(c, crc) + e
    requires p.pos + |ChunkBytes(c, crc)| <= SEEK_MAX
    requires p.progEnd == 0 || p.pos + |ChunkBytes(c, crc)| <= p.progEnd
    ensures var rec := Record(c.addr, |c.data|, crc(c.data));
      var pos := p.pos + |ChunkBytes(c, crc)|;
      && Next(img, p, crc) ==
           (Got(rec, c.data),
             p.(pos := pos, vecLo := p.vecLo || Covers(rec, 0xFFFC), vecHi := p.vecHi || Covers(rec, 0xFFFD)))
      && pos <= |img| && img[pos..] == e
  {
    hide ParseRecord, Gets, ChunkHead;
    var n := crc(c.data);
    var head := ChunkHead(c, n);
    ChunkHeadShape(c, n);
    assert ChunkBytes(c, crc) + e == head + [CR, LF] + (c.data + e);
    LineAt(img, p.pos, RECORD_MAX, head, c.data + e);
    var at := p.pos + |head| + 2;
    assert img[at..at + |c.data|] == img[at..][..|c.data|] == c.data;
    assert img[at + |c.data|..] == img[at..][|c.data|..] == e;
  }

  /** Every chunk where it goes. */
  function DepositAll(m: Memory, cs: seq<Chunk>, crc: Crc): (r: Memory)
    requires MemoryOk(m) && forall i :: 0 <= i < |cs| ==> Loadable(cs[i])
    ensures MemoryOk(r)
    decreases |cs|
  {
    if cs == [] then m
    else
      PageFits(cs[0]);
      DepositAll(Deposited(m, Record(cs[0].addr, |cs[0].data|, crc(cs[0].data)), cs[0].data), cs[1..], crc)
  }

  predicate SomeCovers(cs: seq<Chunk>, a: int) {
    exists i :: 0 <= i < |cs| && cs[i].addr <= a < cs[i].addr + |cs[i].data|
  }

  lemma {:induction false} LoadChunks(img: seq<u8>, p: Pump, cs: seq<Chunk>, e: seq<u8>, m: Memory, crc: Crc)
    requires MemoryOk(m) && forall i :: 0 <= i < |cs| ==> Loadable(cs[i]) && 0 <= crc(cs[i].data) < WORD
    requires p.pos <= |img| && img[p.pos..] == ChunksBytes(cs, crc) + e
    requires p.pos + |ChunksBytes(cs, crc)| <= SEEK_MAX
    requires (e == [] && p.progEnd == 0) || 0 < p.progEnd == p.pos + |ChunksBytes(cs, crc)|
    ensures var r := LoadFrom(img, p, m, crc);
      && r.ok == ((p.vecLo || SomeCovers(cs, 0xFFFC)) && (p.vecHi || SomeCovers(cs, 0xFFFD)))
      && r.mem == DepositAll(m, cs, crc)
    decreases |cs|
  {
    hide Deposited, ChunkBytes, Gets, ParseRecord, Loadable;
    if cs != [] {
      var c := cs[0];
      assert ChunksBytes(cs, crc) + e == ChunkBytes(c, crc) + (ChunksBytes(cs[1..], crc) + e);
      ChunkLength(c, crc);
      NextChunk(img, p, c, ChunksBytes(cs[1..], crc) + e, crc);
      PageFits(c);
      var rec := Record(c.addr, |c.data|, crc(c.data));
      var q := Next(img, p, crc).1;
      var d := Deposited(m, rec, c.data);
      LoadChunks(img, q, cs[1..], e, d, crc);
      hide Next;
      CoversFirst(cs, 0xFFFC);
      CoversFirst(cs, 0xFFFD);
      hide SomeCovers;
    }
  }

  lemma ChunkLength(c: Chunk, crc: Crc)
    ensures |ChunkBytes(c, crc)| >= 2
  {
  }

  lemma CoversFirst(cs: seq<Chunk>, a: int)
    requires cs != []
    ensures SomeCovers(cs, a) <==> cs[0].addr <= a < cs[0].addr + |cs[0].data| || SomeCovers(cs[1..], a)
  {
    if SomeCovers(cs, a) {
      var i :| 0 <= i < |cs| && cs[i].addr <= a < cs[i].addr + |cs[i].data|;
      assert i > 0 ==> cs[i] == cs[1..][i - 1];
    }
    if SomeCovers(cs[1..], a) {
      var i :| 0 <= i < |cs[1..]| && cs[1..][i].addr <= a < cs[1..][i].addr + |cs[1..][i].data|;
      assert cs[i + 1] == cs[1..][i];
    }
  }

  // ---------------- the whole image ----------------

  /** The memory a loaded image should leave: each byte at its address, but for $FF00-$FFF9. */
  ghost predicate Lands(m: Memory, r: Memory, data: Sparse, from: int) {
    && MemoryOk(m) && MemoryOk(r)
    && (forall a :: 0 <= a < RAM ==>
          r.sram[a] == if a in data && from <= a && !(0xFF00 <= a < 0xFFFA) then data[a] else m.sram[a])
    && (forall a :: 0 <= a < RAM ==> r.xram[a] == if RAM + a in data && from <= RAM + a then data[RAM + a]
         else m.xram[a])
    && (forall k :: 0 <= k < REGS ==>
          r.regs[k] == if k >= 0x1A && 0xFFE0 + k in data && from <= 0xFFE0 + k then data[0xFFE0 + k] else m.regs[k])
  }

  lemma {:induction false} DepositsLand(m: Memory, cs: seq<Chunk>, data: Sparse, from: int, crc: Crc)
    requires MemoryOk(m) && Packs(cs, data, from, TOP) && forall a :: a in data ==> a < RAMS
    requires forall i :: 0 <= i < |cs| ==> Loadable(cs[i])
    ensures Lands(m, DepositAll(m, cs, crc), data, from)
    decreases |cs|
  {
    hide ChunkOk;
    if cs != [] {
      var c := cs[0];
      PageFits(c);
      var rec := Record(c.addr, |c.data|, crc(c.data));
      assert Fits(rec) by { LoadableFits(c, rec); }
      var d := Deposited(m, rec, c.data);
      DepositsLand(d, cs[1..], data, c.addr + |c.data|, crc);
      LandsMore(m, d, DepositAll(d, cs[1..], crc), data, from, c, rec);
    }
  }

  lemma LoadableFits(c: Chunk, rec: Record)
    requires Loadable(c) && rec.addr == c.addr && rec.len == |c.data|
    ensures Fits(rec)
  {
    PageFits(c);
  }

  lemma LandsMore(m: Memory, d: Memory, r: Memory, data: Sparse, from: int, c: Chunk, rec: Record)
    requires MemoryOk(m) && Fits(rec) && rec.addr == c.addr && rec.len == |c.data| && d == Deposited(m, rec, c.data)
    requires Lands(d, r, data, c.addr + |c.data|) && from <= c.addr && Holds(c, data)
    requires forall a :: from <= a < c.addr ==> a !in data
    ensures Lands(m, r, data, from)
  {
    hide ChunkOk;
    forall a | 0 <= a < RAM
      ensures r.sram[a] == if a in data && from <= a && !(0xFF00 <= a < 0xFFFA) then data[a] else m.sram[a]
    {
      assert d.sram[a] == if Covers(rec, a) && !(0xFF00 <= a < 0xFFFA) then c.data[a - rec.addr] else m.sram[a];
    }
    forall a | 0 <= a < RAM
      ensures r.xram[a] == if RAM + a in data && from <= RAM + a then data[RAM + a] else m.xram[a]
    {
      assert d.xram[a] == if Covers(rec, RAM + a) then c.data[RAM + a - rec.addr] else m.xram[a];
    }
    forall k | 0 <= k < REGS
      ensures r.regs[k] == if k >= 0x1A && 0xFFE0 + k in data && from <= 0xFFE0 + k then data[0xFFE0 + k] else m.regs[k]
    {
      assert d.regs[k] == if k >= 0x1A && Covers(rec, 0xFFE0 + k) then c.data[0xFFE0 + k - rec.addr] else m.regs[k];
    }
  }

  lemma {:induction false} CoversIsIn(cs: seq<Chunk>, data: Sparse, from: int, a: int)
    requires Packs(cs, data, from, TOP) && from <= a < TOP
    ensures SomeCovers(cs, a) <==> a in data
    decreases |cs|
  {
    hide ChunkOk;
    if cs == [] {
      assert !SomeCovers(cs, a);
    } else {
      CoversFirst(cs, a);
      var next := cs[0].addr + |cs[0].data|;
      hide SomeCovers;
      if a >= next {
        CoversIsIn(cs[1..], data, next, a);
      } else {
        NoneBelow(cs[1..], data, next, a);
      }
    }
  }

  lemma NoneBelow(cs: seq<Chunk>, data: Sparse, from: int, a: int)
    requires Packs(cs, data, from, TOP) && a < from
    ensures !SomeCovers(cs, a)
  {
    PacksPlaces(cs, data, from, TOP);
    hide Packs, Holds;
  }

  /** Chunks of a memory below $20000 are all loadable. */
  lemma PackedLoadable(cs: seq<Chunk>, data: Sparse)
    requires Packs(cs, data, 0, TOP) && forall a :: a in data ==> a < RAMS
    ensures forall i :: 0 <= i < |cs| ==> Loadable(cs[i])
  {
    PacksPlaces(cs, data, 0, TOP);
    hide Packs;
    forall i | 0 <= i < |cs|
      ensures Loadable(cs[i])
    {
      assert Holds(cs[i], data);
      assert cs[i].addr + |cs[i].data| - 1 in data;
    }
  }

  lemma {:induction false} BodyLength(cs: seq<Chunk>, data: Sparse, from: int, crc: Crc)
    requires Packs(cs, data, from, TOP) && (forall a :: a in data ==> a < RAMS) && 0 <= from <= RAMS
    requires forall i :: 0 <= i < |cs| ==> Loadable(cs[i])
    ensures |ChunksBytes(cs, crc)| <= 24 * (RAMS - from)
    decreases |cs|
  {
    if cs != [] {
      var c := cs[0];
      ChunkHeadShape(c, Checksum(crc, c.data));
      hide ChunkHead, Holds;
      BodyLength(cs[1..], data, c.addr + |c.data|, crc);
    }
  }

  lemma MagicIsShebang()
    ensures Inline(MAGIC) && ShebangOk(MAGIC) && |MAGIC| == 8
  {
    InlineString(MAGIC);
    hide CString;
    MagicNamesUs();
  }

  lemma MagicNamesUs()
    ensures NamedAt(MAGIC, 2)
  {
    assert MAGIC[2..8] == [82, 80, 54, 53, 48, 50];
  }

  /** The front of a directory's header line: the length and the checksum. */
  function HeadNumbers(len: nat, crc: nat): Text {
    [HASH, MORE, DOLLAR] + Hex(len, 8) + [SPACE, DOLLAR] + Hex(crc, 8)
  }

  lemma HeadParts(len: nat, n: nat, name: Option<Text>)
    ensures EntryHead(len, n, name) == HeadNumbers(len, n) + Tag(name)
  {
    hide Hex;
  }

  lemma HeadInline(len: nat, n: nat, name: Option<Text>)
    requires len < WORD && n < WORD && (name.Some? ==> Inline(name.value))
    ensures var s := EntryHead(len, n, name);
      Inline(s) && |s| == 21 + |Tag(name)| && |s| > 2 && s[0] == HASH && s[1] == MORE
  {
    NumbersInline(len, n);
    HeadParts(len, n, name);
    hide HeadNumbers;
    assert Inline(Tag(name));
  }

  lemma NumbersInline(len: nat, n: nat)
    requires len < WORD && n < WORD
    ensures var s := HeadNumbers(len, n);
      Inline(s) && |s| == 21 && s[0] == HASH && s[1] == MORE && s[20] != CR
  {
    PowWord();
    HexLength(len, 8, 8);
    HexLength(n, 8, 8);
    hide Hex;
    assert Inline(Hex(len, 8)) && Inline(Hex(n, 8));
  }

  /** The two numbers of a header line, and what comes after them. */
  lemma NumbersBack(len: nat, n: nat, x: Text)
    requires len < WORD && n < WORD && (x == [] || x[0] == SPACE)
    ensures var s := HeadNumbers(len, n) + x;
      && |s| > 2 && ParseUint(s[2..]).Some? && ParseUint(s[2..]).value.value == len
      && ParseUint(ParseUint(s[2..]).value.rest) == Some(Number(n, Trim(x)))
  {
    hide Hex, ParseUint;
    var y := [DOLLAR] + Hex(n, 8) + x;
    var z := [SPACE] + y;
    assert (HeadNumbers(len, n) + x)[2..] == [DOLLAR] + Hex(len, 8) + z;
    HexBack(len, 8, z);
    assert z[1..] == y && Trim(z) == y;
    HexBack(n, 8, x);
  }

  /** A name whose header line a reader of cap bytes takes whole. */
  predicate NameFits(name: Text, cap: nat) { Inline(name) && |name| + 24 < cap }

  predicate EntryFits(name: Option<Text>, cap: nat) { name.Some? ==> NameFits(name.value, cap) }

  /** An image that starts its directory with entry x. */
  function ImageFrom(x: Entry, tail: seq<u8>, crc: Crc): seq<u8> { MAGIC + [CR, LF] + EntryBytes(x, crc) + tail }

  /** The pump at the head of an image whose first entry is len bytes long. */
  function FirstPump(img: seq<u8>, len: nat): Pump {
    match Gets(img, 10, RECORD_MAX)
    case None => Pump(10, 0, 0, false, false)
    case Some(line) => Pump(line.pos, (line.pos + len) % WORD, 10, false, false)
  }

  /** Its second line is the head of the first entry. */
  lemma ImageLines(x: Entry, tail: seq<u8>, crc: Crc)
    ensures var img := ImageFrom(x, tail, crc);
      && Gets(img, 0, RECORD_MAX) == Some(Line(MAGIC, 10)) && ShebangOk(MAGIC) && |img| >= 10
      && img[10..] == EntryHead(|x.data|, Checksum(crc, x.data), x.name) + [CR, LF] + (x.data + tail)
  {
    hide Gets, EntryHead, ShebangOk;
    var img := ImageFrom(x, tail, crc);
    var head := EntryHead(|x.data|, Checksum(crc, x.data), x.name);
    var rest := x.data + tail;
    assert EntryBytes(x, crc) + tail == head + [CR, LF] + rest;
    MagicIsShebang();
    assert img[0..] == MAGIC + [CR, LF] + (head + [CR, LF] + rest);
    hide EntryBytes;
    LineAt(img, 0, RECORD_MAX, MAGIC, head + [CR, LF] + rest);
  }

  /** The pump takes the first entry of the directory for the program, whatever its name and whatever
      follows it. */
  lemma EntryOpens(x: Entry, tail: seq<u8>, crc: Crc)
    requires |x.data| < WORD
    ensures var img := ImageFrom(x, tail, crc); Open(img) == Some(FirstPump(img, |x.data|))
  {
    hide Gets, ParseUint, EntryHead, ShebangOk, HeadNumbers, ImageFrom, Inline;
    var img := ImageFrom(x, tail, crc);
    var n := Checksum(crc, x.data);
    var s, e := HeadNumbers(|x.data|, n), Tag(x.name) + [CR, LF] + (x.data + tail);
    ImageLines(x, tail, crc);
    HeadParts(|x.data|, n, x.name);
    NumbersInline(|x.data|, n);
    assert s + Tag(x.name) + [CR, LF] + (x.data + tail) == s + e;
    LineStarts(img, 10, RECORD_MAX, s, e);
    var t := Gets(img, 10, RECORD_MAX).value.text;
    var y := t[|s|..];
    assert t == s + y;
    if x.name.None? {
      assert img[10..] == s + [CR, LF] + (x.data + tail);
      LineAt(img, 10, RECORD_MAX, s, x.data + tail);
    }
    StringStarts(s, y);
    NumbersBack(|x.data|, n, CString(y));
  }

  /** An entry of 2^32 bytes or more makes the pump refuse the image. */
  lemma EntryRefused(x: Entry, tail: seq<u8>, crc: Crc)
    requires |x.data| >= WORD
    ensures Open(ImageFrom(x, tail, crc)).None?
  {
    hide Gets, EntryHead, ShebangOk, ImageFrom, Digits, Inline, ParseUint;
    var img := ImageFrom(x, tail, crc);
    ImageLines(x, tail, crc);
    var d, e := LongHead(|x.data|, Checksum(crc, x.data), x.name, [CR, LF] + (x.data + tail));
    var s := [HASH, MORE, DOLLAR] + d;
    assert img[10..] == s + e;
    LineStarts(img, 10, RECORD_MAX, s, e);
    var y := Gets(img, 10, RECORD_MAX).value.text[|s|..];
    assert Gets(img, 10, RECORD_MAX).value.text == s + y;
    StringStarts(s, y);
    DigitsMore(d, CString(y), 0);
    assert s + CString(y) == [HASH, MORE, DOLLAR] + (d + CString(y));
    Overflows(s + CString(y), d + CString(y));
  }

  /** The front of a header line whose length is no word, as far as the digits that overflow. */
  lemma LongHead(len: nat, n: nat, name: Option<Text>, rest: Text) returns (d: Text, e: Text)
    requires len >= WORD
    ensures EntryHead(len, n, name) + rest == [HASH, MORE, DOLLAR] + d + e
    ensures 0 < |d| <= 9 && Digits(d, 16, 0).None?
    ensures var s := [HASH, MORE, DOLLAR] + d; Inline(s) && s[|s| - 1] != CR
  {
    hide Hex, Digits, EntryHead;
    HeadParts(len, n, name);
    var f, h, more := [HASH, MORE, DOLLAR], Hex(len, 8), [SPACE, DOLLAR] + Hex(n, 8);
    var k := HexTooLong(len, 8);
    assert k > 0 by { NoDigits(); }
    d, e := h[..k], h[k..] + (more + Tag(name) + rest);
    assert HeadNumbers(len, n) == f + h + more;
    Regrouped(f, d, h[k..], h, more, Tag(name), rest);
    hide *;
    DigitsInline(d);
  }

  lemma Regrouped(f: Text, a: Text, b: Text, h: Text, more: Text, tag: Text, rest: Text)
    requires h == a + b
    ensures f + h + more + tag + rest == f + a + (b + (more + tag + rest))
  {
  }

  lemma DigitsInline(d: Text)
    requires d != [] && forall i :: 0 <= i < |d| ==> IsHex(d[i])
    ensures var s := [HASH, MORE, DOLLAR] + d; Inline(s) && s[|s| - 1] != CR
  {
  }

  lemma NoDigits()
    ensures Digits([], 16, 0).Some?
  {
  }

  lemma Overflows(s: Text, d: Text)
    requires s == [HASH, MORE, DOLLAR] + d && Digits(d, 16, 0).None?
    ensures ParseUint(s[2..]).None?
  {
    hide Digits;
    assert s[2..] == [DOLLAR] + d && ([DOLLAR] + d)[1..] == d;
  }

  /** Where the program is that the pump takes from an entry whose head it reads whole. */
  lemma OpenDirectory(x: Entry, tail: seq<u8>, crc: Crc)
    requires |x.data| < WORD && EntryFits(x.name, RECORD_MAX)
    ensures var img := ImageFrom(x, tail, crc);
      && Open(img).Some? && Heads(Open(img).value, |x.data|)
      && Open(img).value.pos <= |img| && Open(img).value.pos == 33 + |Tag(x.name)|
      && img[Open(img).value.pos..] == x.data + tail
  {
    hide Gets, EntryHead, Open, ImageFrom, Inline, FirstPump, Heads;
    var img := ImageFrom(x, tail, crc);
    var n := Checksum(crc, x.data);
    var head := EntryHead(|x.data|, n, x.name);
    EntryOpens(x, tail, crc);
    ImageLines(x, tail, crc);
    HeadInline(|x.data|, n, x.name);
    hide Checksum;
    var rest := x.data + tail;
    assert img[10..] == head + [CR, LF] + rest;
    LineAt(img, 10, RECORD_MAX, head, rest);
    FirstPumpAt(img, |x.data|);
  }

  /** A pump about to read a program of len bytes that the directory starts with. */
  predicate Heads(p: Pump, len: nat) {
    p.progEnd == (p.pos + len) % WORD && p.assetsStart == 10 && !p.vecLo && !p.vecHi
  }

  lemma FirstPumpAt(img: seq<u8>, len: nat)
    requires Gets(img, 10, RECORD_MAX).Some?
    ensures var p, at := FirstPump(img, len), Gets(img, 10, RECORD_MAX).value.pos;
      p.pos == at && Heads(p, len)
  {
    hide Gets;
  }

  /** A directory that starts with a memory's chunks, under whatever name, loads as that memory. */
  lemma DirectoryLoads(name: Option<Text>, cs: seq<Chunk>, tail: seq<u8>, data: Sparse, m: Memory, crc: Crc)
    requires EntryFits(name, RECORD_MAX) && Packs(cs, data, 0, TOP) && MemoryOk(m) && (exists a :: a in data)
    requires CrcOk(crc)
    requires forall a :: a in data ==> 0 <= a < RAMS
    ensures Loads(ImageFrom(Entry(name, ChunksBytes(cs, crc)), tail, crc), m, data, crc)
  {
    hide ImageFrom, Open, LoadFrom, Packs, Loadable, DepositAll, ChunksBytes, Inline, Lands, SomeCovers;
    var img := ImageFrom(Entry(name, ChunksBytes(cs, crc)), tail, crc);
    PackedLoadable(cs, data);
    BodyLength(cs, data, 0, crc);
    SomeChunk(cs, data);
    OpenDirectory(Entry(name, ChunksBytes(cs, crc)), tail, crc);
    ChunksEmpty(cs, crc);
    LoadChunks(img, Open(img).value, cs, tail, m, crc);
    DepositsLand(m, cs, data, 0, crc);
    CoversIsIn(cs, data, 0, 0xFFFC);
    CoversIsIn(cs, data, 0, 0xFFFD);
  }

  /** A classic image, a shebang and chunks to the end of the file: it loads as their memory, from the first
      chunk on, and has no asset directory. */
  lemma ClassicLoads(head: Text, cs: seq<Chunk>, data: Sparse, m: Memory, crc: Crc)
    requires Inline(head) && ShebangOk(head) && |head| + 2 < 1024
    requires Packs(cs, data, 0, TOP) && MemoryOk(m) && CrcOk(crc) && forall a :: a in data ==> 0 <= a < 0x20000
    ensures var img := head + [13, 10] + ChunksBytes(cs, crc);
      Loads(img, m, data, crc) && Open(img).Some? && Open(img).value.assetsStart == 0
  {
    hide LoadFrom, Packs, Loadable, DepositAll, ChunksBytes, ChunkBytes, Inline, Lands, SomeCovers, ShebangOk, Open;
    hide Gets;
    var body := ChunksBytes(cs, crc);
    var img := head + [CR, LF] + body;
    PackedLoadable(cs, data);
    BodyLength(cs, data, 0, crc);
    ClassicOpens(head, cs, crc);
    assert img[|head| + 2..] == body + [];
    LoadChunks(img, Open(img).value, cs, [], m, crc);
    DepositsLand(m, cs, data, 0, crc);
    CoversIsIn(cs, data, 0, 0xFFFC);
    CoversIsIn(cs, data, 0, 0xFFFD);
  }

  /** A chunk's header is no directory's: the records start right after the shebang. */
  lemma ClassicOpens(head: Text, cs: seq<Chunk>, crc: Crc)
    requires Inline(head) && ShebangOk(head) && |head| + 2 < RECORD_MAX
    requires forall i :: 0 <= i < |cs| ==> Loadable(cs[i])
    ensures Open(head + [CR, LF] + ChunksBytes(cs, crc)) == Some(Pump(|head| + 2, 0, 0, false, false))
  {
    hide ShebangOk, Gets, ChunkHead, Inline, Loadable, Open, ChunksBytes, Checksum, ParseRecord, ChunkOk, CString;
    var body := ChunksBytes(cs, crc);
    var img := head + [CR, LF] + body;
    assert img[0..] == img && img[|head| + 2..] == body;
    LineAt(img, 0, RECORD_MAX, head, body);
    if cs == [] {
      NoBody(crc);
      NoLine(img, |head| + 2, RECORD_MAX);
    } else {
      var n := Checksum(crc, cs[0].data);
      ChunkHeadShape(cs[0], n);
      ChunkHeadInline(cs[0], n);
      BodyStarts(cs, crc);
      LineAt(img, |head| + 2, RECORD_MAX, ChunkHead(cs[0], n), cs[0].data + ChunksBytes(cs[1..], crc));
    }
    OpensClassic(img, head, |head| + 2);
  }

  lemma NoBody(crc: Crc)
    ensures ChunksBytes([], crc) == []
  {
  }

  lemma BodyStarts(cs: seq<Chunk>, crc: Crc)
    requires cs != []
    ensures ChunksBytes(cs, crc) ==
            ChunkHead(cs[0], Checksum(crc, cs[0].data)) + [CR, LF] + (cs[0].data + ChunksBytes(cs[1..], crc))
  {
    hide ChunkHead, Checksum;
    Joined(ChunkHead(cs[0], Checksum(crc, cs[0].data)) + [CR, LF], cs[0].data, ChunksBytes(cs[1..], crc));
  }

  lemma Joined(a: seq<u8>, b: seq<u8>, c: seq<u8>)
    ensures a + b + c == a + (b + c)
  {
  }

  lemma OpensClassic(img: seq<u8>, head: Text, pos: nat)
    requires Gets(img, 0, RECORD_MAX) == Some(Line(head, pos)) && ShebangOk(head)
    requires var second := Gets(img, pos, RECORD_MAX);
      second.Some? ==> second.value.text != [] && second.value.text[0] != HASH
    ensures Open(img) == Some(Pump(pos, 0, 0, false, false))
  {
    hide ShebangOk, Gets, ParseUint;
  }

  /** A second line that starts a directory must go on with two numbers, or the image is refused. */
  lemma DirectoryRefused(head: Text, line: Text, e: seq<u8>)
    requires Inline(head) && ShebangOk(head) && |head| + 2 < 1024 && Inline(line) && |line| + 2 < 1024
    requires |line| >= 2 && line[0] == 35 && line[1] == 62
    requires ParseUint(line[2..]).None? || ParseUint(ParseUint(line[2..]).value.rest).None?
    ensures Open(head + [13, 10] + line + [13, 10] + e) == None
  {
    hide ShebangOk, Gets, Inline, ParseUint;
    var img := head + [13, 10] + line + [13, 10] + e;
    var rest := line + [13, 10] + e;
    assert img[0..] == head + [13, 10] + rest && img[|head| + 2..] == rest;
    LineAt(img, 0, RECORD_MAX, head, rest);
    LineAt(img, |head| + 2, RECORD_MAX, line, e);
    InlineString(line);
  }

  lemma NoLine(img: seq<u8>, pos: nat, cap: nat)
    requires pos >= |img| && cap > 1
    ensures Gets(img, pos, cap) == None
  {
  }

  lemma ImageIsFrom(cs: seq<Chunk>, xs: seq<Asset>, crc: Crc)
    requires Directory(cs, xs, crc) != []
    ensures var dir := Directory(cs, xs, crc);
      ImageBytes(cs, xs, crc) == ImageFrom(dir[0], EntriesBytes(dir[1..], crc), crc)
  {
    hide EntryBytes, Directory;
  }

  /** What loading an image of memory data should do to memory m: succeed exactly when data holds the
      reset vector, and leave every byte of data at its address and all else as it was. */
  ghost predicate Loads(img: seq<u8>, m: Memory, data: Sparse, crc: Crc)
    requires MemoryOk(m)
  {
    match Open(img)
    case None => !(0xFFFC in data && 0xFFFD in data) && Lands(m, m, data, 0)
    case Some(p) =>
      && LoadFrom(img, p, m, crc).ok == (0xFFFC in data && 0xFFFD in data)
      && Lands(m, LoadFrom(img, p, m, crc).mem, data, 0)
  }

  /** Packing any memory below $20000 with a byte in it and loading the image leaves every byte at its
      address, and succeeds exactly when the memory holds both bytes of the reset vector. */
  lemma PackedLoads(cs: seq<Chunk>, xs: seq<Asset>, data: Sparse, m: Memory, crc: Crc)
    requires Packs(cs, data, 0, TOP) && MemoryOk(m) && (exists a :: a in data) && CrcOk(crc)
    requires forall a :: a in data ==> 0 <= a < RAMS
    ensures Loads(ImageBytes(cs, xs, crc), m, data, crc)
  {
    SomeChunk(cs, data);
    DirectoryLoads(None, cs, EntriesBytes(Entries(xs), crc), data, m, crc);
    assert Directory(cs, xs, crc)[1..] == Entries(xs);
    hide Loads;
    ImageIsFrom(cs, xs, crc);
  }

  lemma SomeChunk(cs: seq<Chunk>, data: Sparse)
    requires Packs(cs, data, 0, TOP) && (exists a :: a in data) && forall a :: a in data ==> 0 <= a < RAMS
    ensures cs != []
  {
    var a :| a in data;
    CoversIsIn(cs, data, 0, a);
  }

  // ---------------- images that pack no memory ----------------

  /** The byte of RAM or XRAM at an address. */
  function ByteOf(m: Memory, a: int): u8
    requires MemoryOk(m) && 0 <= a < RAMS
  {
    if a < RAM then m.sram[a] else m.xram[a - RAM]
  }

  /** Whether a record stores anything: all of one in $FF00-$FFF9 is dropped. */
  predicate Stores(rec: Record) { rec.addr < 0xFF00 || rec.addr + rec.len > 0xFFFA }

  /** No record from here on stores anything. */
  predicate StoresNothing(img: seq<u8>, p: Pump, crc: Crc)
    decreases |img| - p.pos
  {
    var n := Next(img, p, crc);
    match n.0
    case Skipped => StoresNothing(img, n.1, crc)
    case Got(rec, _) => !Stores(rec) && StoresNothing(img, n.1, crc)
    case _ => true
  }

  /** The byte the records from here on leave at an address, when one stores there. */
  function LastStored(img: seq<u8>, p: Pump, a: int, crc: Crc): Option<u8>
    decreases |img| - p.pos
  {
    var n := Next(img, p, crc);
    match n.0
    case Skipped => LastStored(img, n.1, a, crc)
    case Got(rec, buf) =>
      var later := LastStored(img, n.1, a, crc);
      if later.Some? then later
      else if Covers(rec, a) && !(0xFF00 <= a < 0xFFFA) then Some(buf[a - rec.addr]) else None
    case _ => None
  }

  lemma {:induction false} LoadedByte(img: seq<u8>, p: Pump, m: Memory, a: int, crc: Crc)
    requires MemoryOk(m) && 0 <= a < RAMS
    ensures ByteOf(LoadFrom(img, p, m, crc).mem, a) ==
            match LastStored(img, p, a, crc) case None => ByteOf(m, a) case Some(v) => v
    decreases |img| - p.pos
  {
    hide Next;
    var n := Next(img, p, crc);
    match n.0
    case Skipped => LoadedByte(img, n.1, m, a, crc);
    case Got(rec, buf) => LoadedByte(img, n.1, Deposited(m, rec, buf), a, crc);
    case _ =>
  }

  /** A load that succeeds has stored both bytes of the reset vector. */
  lemma {:induction false} LoadStoresVector(img: seq<u8>, p: Pump, m: Memory, crc: Crc)
    requires MemoryOk(m) && LoadFrom(img, p, m, crc).ok
    ensures p.vecLo || LastStored(img, p, 0xFFFC, crc).Some?
    ensures p.vecHi || LastStored(img, p, 0xFFFD, crc).Some?
    decreases |img| - p.pos
  {
    hide Gets, ParseRecord;
    var n := Next(img, p, crc);
    match n.0
    case Skipped => LoadStoresVector(img, n.1, m, crc);
    case Got(rec, buf) => LoadStoresVector(img, n.1, Deposited(m, rec, buf), crc);
    case _ =>
  }

  lemma {:induction false} StoredSomewhere(img: seq<u8>, p: Pump, crc: Crc) returns (a: int)
    requires !StoresNothing(img, p, crc)
    ensures 0 <= a < RAMS && LastStored(img, p, a, crc).Some?
    decreases |img| - p.pos
  {
    hide Next;
    var n := Next(img, p, crc);
    match n.0
    case Skipped => a := StoredSomewhere(img, n.1, crc);
    case Got(rec, buf) =>
      if StoresNothing(img, n.1, crc) {
        a := if rec.addr < 0xFF00 || rec.addr >= 0xFFFA then rec.addr else 0xFFFA;
      } else {
        a := StoredSomewhere(img, n.1, crc);
      }
    case _ => a := 0;
  }

  lemma {:induction false} NothingStored(img: seq<u8>, p: Pump, m: Memory, crc: Crc)
    requires MemoryOk(m) && StoresNothing(img, p, crc) && !p.vecLo
    ensures LoadFrom(img, p, m, crc).mem == m && !LoadFrom(img, p, m, crc).ok
    decreases |img| - p.pos
  {
    hide Gets, ParseRecord;
    var n := Next(img, p, crc);
    match n.0
    case Skipped => NothingStored(img, n.1, m, crc);
    case Got(rec, buf) =>
      DropsAll(m, rec, buf);
      NothingStored(img, n.1, m, crc);
    case _ =>
  }

  lemma DropsAll(m: Memory, rec: Record, buf: seq<u8>)
    requires MemoryOk(m) && Fits(rec) && rec.addr >= 0 && |buf| == rec.len && !Stores(rec)
    ensures Deposited(m, rec, buf) == m
  {
    DepositedAt(m, rec, buf, m);
  }

  /** No record from here on leaves a byte anywhere. */
  ghost predicate LeavesNothing(img: seq<u8>, p: Pump, crc: Crc) {
    forall a :: 0 <= a < RAMS ==> LastStored(img, p, a, crc) == None
  }

  lemma {:induction false} DropsLeaveNothing(img: seq<u8>, p: Pump, a: int, crc: Crc)
    requires StoresNothing(img, p, crc) && 0 <= a < RAMS
    ensures LastStored(img, p, a, crc) == None
    decreases |img| - p.pos
  {
    hide Next;
    var n := Next(img, p, crc);
    match n.0
    case Skipped => DropsLeaveNothing(img, n.1, a, crc);
    case Got(rec, buf) => DropsLeaveNothing(img, n.1, a, crc);
    case _ =>
  }

  lemma LeavesByStoring(img: seq<u8>, p: Pump, crc: Crc)
    ensures LeavesNothing(img, p, crc) <==> StoresNothing(img, p, crc)
  {
    hide StoresNothing, LastStored;
    if StoresNothing(img, p, crc) {
      forall a | 0 <= a < RAMS
        ensures LastStored(img, p, a, crc) == None
      {
        DropsLeaveNothing(img, p, a, crc);
      }
    } else {
      var a := StoredSomewhere(img, p, crc);
    }
  }

  /** Whatever is packed, loading the image does as it should to every memory exactly when the packed memory
      has a byte in it, or there is no asset, or the first asset is 2^32 bytes or more, or no record among
      its data and what follows leaves a byte. */
  lemma LoadsExactly(cs: seq<Chunk>, xs: seq<Asset>, data: Sparse, crc: Crc)
    requires Packs(cs, data, 0, TOP) && CrcOk(crc) && forall a :: a in data ==> 0 <= a < RAMS
    ensures var img := ImageBytes(cs, xs, crc);
      (forall m :: MemoryOk(m) ==> Loads(img, m, data, crc)) <==>
      ((exists a :: a in data) || xs == [] || |xs[0].data| >= WORD
       || LeavesNothing(img, FirstPump(img, |xs[0].data|), crc))
  {
    hide ImageBytes, Open, LoadFrom, StoresNothing, LeavesNothing, FirstPump, EntriesBytes;
    var img := ImageBytes(cs, xs, crc);
    if exists a :: a in data {
      forall m | MemoryOk(m)
        ensures Loads(img, m, data, crc)
      {
        PackedLoads(cs, xs, data, m, crc);
      }
    } else {
      NoChunks(cs, data);
      if xs == [] {
        NothingPacked(crc);
        EmptyLoads(img, data, crc);
      } else {
        AssetsOpen(xs, crc);
        if |xs[0].data| >= WORD {
          EmptyRefused(img, data, crc);
        } else {
          EmptyLoads(img, data, crc);
          LeavesByStoring(img, FirstPump(img, |xs[0].data|), crc);
        }
      }
    }
  }

  lemma NoChunks(cs: seq<Chunk>, data: Sparse)
    requires Packs(cs, data, 0, TOP) && !(exists a :: a in data)
    ensures cs == []
  {
    if cs != [] {
      FirstHeld(cs, data, 0, TOP);
    }
  }

  /** The head of an image of assets alone. */
  lemma AssetsOpen(xs: seq<Asset>, crc: Crc)
    requires xs != []
    ensures var img := ImageBytes([], xs, crc);
      Open(img) == if |xs[0].data| >= WORD then None else Some(FirstPump(img, |xs[0].data|))
  {
    hide ImageBytes, Open, FirstPump, EntriesBytes, ImageFrom;
    ImageIsFrom([], xs, crc);
    var tail := EntriesBytes(Directory([], xs, crc)[1..], crc);
    if |xs[0].data| >= WORD {
      EntryRefused(EntryOf(xs[0]), tail, crc);
    } else {
      EntryOpens(EntryOf(xs[0]), tail, crc);
    }
  }

  lemma EmptyRefused(img: seq<u8>, data: Sparse, crc: Crc)
    requires Open(img).None? && !(exists a :: a in data)
    ensures forall m :: MemoryOk(m) ==> Loads(img, m, data, crc)
  {
    hide Open;
    assert 0xFFFC !in data;
  }

  /** An image of no memory loads as it should exactly when it stores nothing. */
  lemma EmptyLoads(img: seq<u8>, data: Sparse, crc: Crc)
    requires Open(img).Some? && !(exists a :: a in data)
    ensures (forall m :: MemoryOk(m) ==> Loads(img, m, data, crc)) <==> StoresNothing(img, Open(img).value, crc)
  {
    OpenSeenNothing(img);
    hide Open, LoadFrom, StoresNothing, LastStored;
    var p := Open(img).value;
    if StoresNothing(img, p, crc) {
      forall m | MemoryOk(m)
        ensures Loads(img, m, data, crc)
      {
        NothingStored(img, p, m, crc);
        assert 0xFFFC !in data;
      }
    } else {
      var a := StoredSomewhere(img, p, crc);
      var m := Filled(if LastStored(img, p, a, crc).value == 0 then 1 else 0);
      LoadedByte(img, p, m, a, crc);
      assert !Loads(img, m, data, crc);
    }
  }

  lemma OpenSeenNothing(img: seq<u8>)
    ensures Open(img).Some? ==> !Open(img).value.vecLo && !Open(img).value.vecHi
  {
    hide Gets, ShebangOk, ParseUint;
  }

  /** A memory of one byte throughout. */
  function Filled(v: u8): (m: Memory)
    ensures MemoryOk(m) && forall a :: 0 <= a < RAMS ==> ByteOf(m, a) == v
  {
    Memory(seq(RAM, _ => v), seq(RAM, _ => v), seq(REGS, _ => v))
  }

  /** With neither memory nor assets there is nothing to read. */
  lemma NothingPacked(crc: Crc)
    ensures var img := ImageBytes([], [], crc); Open(img).Some? && StoresNothing(img, Open(img).value, crc)
  {
    var img := ImageBytes([], [], crc);
    assert img == MAGIC + [CR, LF] && img[0..] == MAGIC + [CR, LF] + [];
    MagicIsShebang();
    hide ShebangOk, ImageBytes;
    LineAt(img, 0, RECORD_MAX, MAGIC, []);
    hide ParseRecord;
  }

  /** With assets alone the first is read as the program: one that holds another memory's chunks loads that
      memory, though the image packs none. */
  lemma AssetLoads(name: Text, cs: seq<Chunk>, more: seq<Asset>, data: Sparse, m: Memory, crc: Crc)
    requires NameFits(name, RECORD_MAX) && Packs(cs, data, 0, TOP) && MemoryOk(m) && (exists a :: a in data)
    requires CrcOk(crc)
    requires forall a :: a in data ==> 0 <= a < RAMS
    ensures var img := ImageBytes([], [Asset(name, ChunksBytes(cs, crc))] + more, crc);
      && Loads(img, m, data, crc)
      && ((exists a :: a in data && !(0xFF00 <= a < 0xFFFA)) ==>
            exists r :: MemoryOk(r) && !Loads(img, r, map[], crc))
  {
    hide Open, LoadFrom, Packs, ChunksBytes, Loads, Lands, EntriesBytes, Inline, NameFits, MemoryOk, ByteOf, Filled;
    hide ImageBytes, ImageFrom;
    var xs := [Asset(name, ChunksBytes(cs, crc))] + more;
    var img := ImageBytes([], xs, crc);
    var tail := EntriesBytes(Entries(xs)[1..], crc);
    assert Directory([], xs, crc) == Entries(xs);
    ImageIsFrom([], xs, crc);
    DirectoryLoads(Some(name), cs, tail, data, m, crc);
    if a :| a in data && !(0xFF00 <= a < 0xFFFA) {
      var r := Filled(if data[a] == 0 then 1 else 0);
      DirectoryLoads(Some(name), cs, tail, data, r, crc);
      NotAsPacked(img, r, data, a, crc);
    }
  }

  lemma NotAsPacked(img: seq<u8>, r: Memory, data: Sparse, a: int, crc: Crc)
    requires MemoryOk(r) && Loads(img, r, data, crc) && a in data && 0 <= a < RAMS && !(0xFF00 <= a < 0xFFFA)
    requires ByteOf(r, a) != data[a]
    ensures !Loads(img, r, map[], crc)
  {
    hide Open, LoadFrom;
  }

  // ---------------- packed here, loaded there ----------------

  lemma PackedRuns(cs: seq<Chunk>, xs: seq<Asset>, data: Sparse, m: Memory, crc: Crc)
    requires Packs(cs, data, 0, TOP) && MemoryOk(m) && (exists a :: a in data) && CrcOk(crc)
    requires forall a :: a in data ==> 0 <= a < RAMS
    ensures var img := ImageBytes(cs, xs, crc);
      && Open(img).Some? && LoadFrom(img, Open(img).value, m, crc).ok == (0xFFFC in data && 0xFFFD in data)
      && Lands(m, LoadFrom(img, Open(img).value, m, crc).mem, data, 0)
  {
    hide Packs, LoadFrom, Open, Lands, ImageBytes, ImageFrom, ChunksBytes, EntriesBytes, FirstPump, Loadable;
    PackedLoads(cs, xs, data, m, crc);
    SomeChunk(cs, data);
    ImageIsFrom(cs, xs, crc);
    PackedLoadable(cs, data);
    BodyLength(cs, data, 0, crc);
    EntryOpens(Directory(cs, xs, crc)[0], EntriesBytes(Directory(cs, xs, crc)[1..], crc), crc);
  }

  /** A packer's ROM with a byte in it, packed and loaded: the packer's own test for a reset vector foretells
      whether the load succeeds. */
  method PackAndLoad(rom: Rom, loader: Loader) returns (packed: bool, vector: bool, ok: bool)
    requires rom.Valid() && loader.Valid() && loader.crc == rom.crc && CrcOk(rom.crc)
    requires (exists a :: a in rom.data) && forall a :: a in rom.data ==> a < RAMS
    modifies loader`assetsStart, loader.sram, loader.xram, loader.regs
    ensures packed == (rom.Whole() && NamesAscii(rom.assets))
    ensures if packed then ok == vector == (0xFFFC in rom.data && 0xFFFD in rom.data)
      && Lands(old(loader.Mem()), loader.Mem(), rom.data, 0)
            else loader.Mem() == old(loader.Mem())
  {
    hide Packs, LoadFrom, Open, Lands, NamesAscii, ImageBytes;
    var img;
    ghost var cs;
    packed, img, cs := rom.ToBytes();
    vector, ok := false, false;
    if packed {
      vector := rom.HasResetVector();
      PackedRuns(cs, rom.assets, rom.data, loader.Mem(), rom.crc);
      ok := loader.Load(img);
    }
  }

  // ---------------- one record line ----------------

  /** A line of three numbers in the packer's form. */
  function Triple(a: nat, b: nat, c: nat): Text {
    [36] + Hex(a, 4) + [32, 36] + Hex(b, 3) + [32, 36] + Hex(c, 8)
  }

  /** What the pump makes of such a line and of what follows it: the record, when it has a byte and at most
      1024, lies inside the first 64 KB or the second, and its bytes are there and have the checksum; and
      else an error. */
  lemma RecordChecked(img: seq<u8>, p: Pump, a: nat, b: nat, c: nat, e: seq<u8>, crc: Crc)
    requires a < 0x1_0000_0000 && b < 0x1_0000_0000 && c < 0x1_0000_0000 && |Triple(a, b, c)| < 100
    requires p.pos <= |img| && img[p.pos..] == Triple(a, b, c) + [13, 10] + e && |img| < 0x8000_0000
    requires p.progEnd == 0 || p.pos < p.progEnd
    ensures var at := p.pos + |Triple(a, b, c)| + 2;
      Next(img, p, crc) ==
      if 1 <= b <= 1024 && (a + b <= 65536 || (65536 <= a && a + b <= 131072)) && b <= |e| && crc(e[..b]) == c then
        (Got(Record(a, b, c), e[..b]),
         p.(pos := at + b, vecLo := p.vecLo || a <= 0xFFFC < a + b, vecHi := p.vecHi || a <= 0xFFFD < a + b))
      else (Error, p)
  {
    hide Gets, ParseRecord, Hex, Inline, Triple;
    var line := Triple(a, b, c);
    TripleParses(a, b, c);
    LineAt(img, p.pos, RECORD_MAX, line, e);
    var at := p.pos + |line| + 2;
    assert img[at..] == e && |e| == |img| - at;
    if b <= |e| {
      assert img[at..at + b] == e[..b];
    }
  }

  lemma TripleParses(a: nat, b: nat, c: nat)
    requires a < WORD && b < WORD && c < WORD
    ensures Inline(Triple(a, b, c))
    ensures ParseRecord(Triple(a, b, c)) ==
            if 1 <= b <= 1024 && (a + b <= 65536 || (65536 <= a && a + b <= 131072)) then RecordOk(Record(a, b, c))
            else OutOfRange
  {
    hide Hex, ParseUint;
    var z := [SPACE, DOLLAR] + Hex(c, 8);
    var y := [SPACE, DOLLAR] + Hex(b, 3) + z;
    var s := [DOLLAR] + Hex(a, 4) + y;
    assert Triple(a, b, c) == s;
    assert Inline(s);
    InlineString(s);
    ThreeNumbers(a, 4, b, 3, c);
    RecordMeans(Record(a, b, c));
    hide Inline, Fits;
  }

  /** A blank line and a comment are passed over, and a line that starts with no number is an error. */
  lemma LineChecked(img: seq<u8>, p: Pump, line: Text, e: seq<u8>, crc: Crc)
    requires Inline(line) && |line| < 1000
    requires p.pos <= |img| && img[p.pos..] == line + [13, 10] + e && |img| < 0x8000_0000
    requires p.progEnd == 0 || p.pos < p.progEnd
    ensures line == [] || line[0] == 35 ==> Next(img, p, crc) == (Skipped, p.(pos := p.pos + |line| + 2))
    ensures line != [] && line[0] != 35 && ParseUint(line) == None ==> Next(img, p, crc) == (Error, p)
  {
    hide Gets, ParseUint, Inline;
    LineAt(img, p.pos, RECORD_MAX, line, e);
    InlineString(line);
  }

  /** A line of one number, of two, or of three and more is no record. */
  lemma WrongCount(a: nat, b: nat, c: nat, x: Text)
    requires a < 0x1_0000_0000 && b < 0x1_0000_0000 && c < 0x1_0000_0000 && Inline(x) && Trim(x) != []
    ensures ParseRecord([36] + Hex(a, 4)) == Malformed
    ensures ParseRecord([36] + Hex(a, 4) + [32, 36] + Hex(b, 3)) == Malformed
    ensures ParseRecord([36] + Hex(a, 4) + [32, 36] + Hex(b, 3) + [32, 36] + Hex(c, 8) + [32] + x) == Malformed
  {
    hide *;
    NumberThen(a, 4, []);
    NumberThen(b, 3, []);
    NumberThen(c, 8, [32] + x);
    var one, two, three := [36] + Hex(a, 4), [36] + Hex(b, 3), [36] + Hex(c, 8) + ([32] + x);
    NumberThen(a, 4, [32] + two);
    NumberThen(a, 4, [32] + (two + ([32] + three)));
    NumberThen(b, 3, [32] + three);
    assert one + [] == one && two + [] == two;
    assert one + [32, 36] + Hex(b, 3) == one + ([32] + two);
    assert one + [32, 36] + Hex(b, 3) + [32, 36] + Hex(c, 8) + [32] + x == one + ([32] + (two + ([32] + three)));
    HexPlain(a, 4);
    HexPlain(b, 3);
    HexPlain(c, 8);
    JoinPlain([36] + Hex(c, 8), x);
    SpacedPlain(two, three, x, one);
    Short(one, a, None);
    Short(one + ([32] + two), a, Some((b, two)));
    Long(one + ([32] + (two + ([32] + three))), a, b, c, two + ([32] + three), three, x);
  }

  lemma NumberThen(n: nat, w: nat, e: Text)
    requires n < 0x1_0000_0000 && w > 0 && (e == [] || e[0] == 32)
    ensures ParseUint([36] + Hex(n, w) + e) == Some(Number(n, Trim(e)))
  {
    HexBack(n, w, e);
  }

  lemma HexPlain(n: nat, w: nat)
    ensures Inline([36] + Hex(n, w))
  {
  }

  lemma JoinPlain(s: Text, x: Text)
    requires Inline(s) && Inline(x)
    ensures Inline(s + ([32] + x))
  {
  }

  lemma SpacedPlain(two: Text, three: Text, x: Text, one: Text)
    requires Inline(one) && Inline(two) && one != [] && two != [] && two[0] == 36
    requires three != [] && three[0] == 36 && Inline(three)
    ensures Inline(one + ([32] + two)) && Trim([32] + two) == two && Trim([]) == []
    ensures Inline(one + ([32] + (two + ([32] + three)))) && Trim([32] + (two + ([32] + three))) == two + ([32] + three)
    ensures Trim([32] + three) == three && Trim([32] + x) == Trim(x)
  {
    assert ([32] + two)[1..] == two && ([32] + three)[1..] == three && ([32] + x)[1..] == x;
    assert ([32] + (two + ([32] + three)))[1..] == two + ([32] + three);
  }

  lemma Short(s: Text, a: int, more: Option<(int, Text)>)
    requires Inline(s) && s != [] && s[0] == 36 && ParseUint(s).Some?
    requires match more
      case None => ParseUint(s).value.rest == []
      case Some(m) => ParseUint(s).value.rest == m.1 && ParseUint(m.1) == Some(Number(m.0, []))
    ensures ParseRecord(s) == Malformed
  {
    InlineString(s);
    assert ParseUint([]) == None;
    hide ParseUint;
  }

  lemma Long(s: Text, a: int, b: int, c: int, t: Text, u: Text, x: Text)
    requires Inline(s) && s != [] && s[0] == 36 && ParseUint(s) == Some(Number(a, t))
    requires ParseUint(t) == Some(Number(b, u)) && ParseUint(u) == Some(Number(c, Trim(x))) && Trim(x) != []
    ensures ParseRecord(s) == Malformed
  {
    InlineString(s);
    hide ParseUint, Trim;
  }
}
