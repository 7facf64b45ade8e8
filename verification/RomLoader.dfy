/** The .rp6502 record pump and loader (src/core/rom/pump.c, src/core/rom/rom.c). A file is the bytes
    it holds, and every read of it succeeds. */
module RomLoader {
  import opened Common
  import opened MonitorText
  import opened RomText

  const RECORD_MAX := 1024
  const RAM := 0x10000
  const REGS := 32
  const SEEK_MAX := 0x8000_0000  // a file driver seeks to a signed 32-bit position
  const HASH: u8 := 35
  const BANG: u8 := 33
  const MORE: u8 := 62

  type Crc = seq<u8> -> int

  // ---------------- lines ----------------

  /** The bytes up to a newline, or all of them. */
  function LineEnd(s: Text): (n: nat)
    ensures n <= |s| && (n < |s| ==> s[n] == LF) && (forall k :: 0 <= k < n ==> s[k] != LF)
  {
    if s == [] || s[0] == LF then 0 else 1 + LineEnd(s[1..])
  }

  /** A line, its CR and LF stripped, and the offset after it. */
  datatype Line = Line(text: Text, pos: nat)

  /** One text line of at most cap - 1 bytes; nothing at the end of the file, nor where the driver cannot
      seek (pump_gets, asset_gets). */
  function Gets(img: seq<u8>, pos: nat, cap: nat): (r: Option<Line>)
    requires cap > 1
    ensures r.Some? ==> pos < r.value.pos <= |img| && |r.value.text| < cap && r.value.pos < SEEK_MAX + cap
  {
    if pos >= |img| || pos >= SEEK_MAX then None
    else
      var block := img[pos..if pos + cap - 1 <= |img| then pos + cap - 1 else |img|];
      var i := LineEnd(block);
      var len := if i > 0 && block[i - 1] == CR then i - 1 else i;
      Some(Line(block[..len], pos + if i < |block| then i + 1 else i))
  }

  method ReadLine(img: seq<u8>, pos: nat, cap: nat) returns (r: Option<Line>)
    requires cap > 1
    ensures r == Gets(img, pos, cap)
  {
    if pos >= |img| || pos >= SEEK_MAX {
      return None;
    }
    var block := img[pos..if pos + cap - 1 <= |img| then pos + cap - 1 else |img|];
    var i := 0;
    while i < |block| && block[i] != LF
      invariant 0 <= i <= |block| && LineEnd(block) == i + LineEnd(block[i..])
    {
      assert block[i..][1..] == block[i + 1..];
      i := i + 1;
    }
    assert LineEnd(block) == i;
    var next := pos + if i < |block| then i + 1 else i;
    if i > 0 && block[i - 1] == CR {
      i := i - 1;
    }
    return Some(Line(block[..i], next));
  }

  /** A line as the C string it is: up to its first zero. */
  function CString(s: Text): (r: Text)
    ensures |r| <= |s|
  {
    if s == [] || s[0] == 0 then [] else [s[0]] + CString(s[1..])
  }

  // ---------------- records ----------------

  datatype Record = Record(addr: int, len: int, crc: int)

  datatype Parsed = RecordOk(rec: Record) | Skip | Malformed | OutOfRange

  predicate Fits(r: Record) {
    && r.addr <= 0x1FFFF && 0 < r.len <= 0x20000 - r.addr && (r.addr < RAM ==> r.len <= RAM - r.addr)
    && r.len <= RECORD_MAX
  }

  function ParseRecord(text: Text): (p: Parsed)
    ensures p.RecordOk? ==> Fits(p.rec) && p.rec.addr >= 0
  {
    var s := CString(text);
    if s == [] || s[0] == HASH then Skip
    else
      var a := ParseUint(s);
      if a.None? then Malformed else
      var b := ParseUint(a.value.rest);
      if b.None? then Malformed else
      var c := ParseUint(b.value.rest);
      if c.None? || c.value.rest != [] then Malformed else
      var r := Record(a.value.value, b.value.value, c.value.value);
      if Fits(r) then RecordOk(r) else OutOfRange
  }

  /** Where a pump is, and which halves of the reset vector it has seen. */
  datatype Pump = Pump(pos: nat, progEnd: nat, assetsStart: nat, vecLo: bool, vecHi: bool)

  datatype Pumped = Got(rec: Record, buf: seq<u8>) | Skipped | Eof | Error

  predicate Covers(r: Record, a: int) { r.addr <= a < r.addr + r.len }

  /** One record (rom_pump_next). */
  function Next(img: seq<u8>, p: Pump, crc: Crc): (r: (Pumped, Pump))
    ensures r.0.Got? || r.0.Skipped? ==> p.pos < r.1.pos <= |img|
    ensures r.0.Got? ==> Fits(r.0.rec) && r.0.rec.addr >= 0 && |r.0.buf| == r.0.rec.len
    ensures r.1.progEnd == p.progEnd
  {
    if p.progEnd != 0 && p.pos >= p.progEnd then (Eof, p)
    else
      match Gets(img, p.pos, RECORD_MAX)
      case None => (if p.progEnd != 0 then Error else Eof, p)
      case Some(line) =>
        match ParseRecord(line.text)
        case Skip => (Skipped, p.(pos := line.pos))
        case RecordOk(rec) =>
          if line.pos >= SEEK_MAX || line.pos + rec.len > |img|
            || crc(img[line.pos..line.pos + rec.len]) != rec.crc then (Error, p)
          else
            (Got(rec, img[line.pos..line.pos + rec.len]),
             p.(pos := line.pos + rec.len,
                vecLo := p.vecLo || Covers(rec, 0xFFFC), vecHi := p.vecHi || Covers(rec, 0xFFFD)))
        case _ => (Error, p)
  }

  /** A shebang naming rp6502, in any case. */
  predicate ShebangOk(text: Text) {
    var s := CString(text);
    |s| >= 2 && s[0] == HASH && s[1] == BANG && exists i :: 2 <= i < |s| && NamedAt(s, i)
  }

  predicate NamedAt(s: Text, i: nat) { i + 6 <= |s| && NamesUs(s[i..i + 6]) }

  function Lower(c: u8): u8 { if 65 <= c <= 90 then c + 32 else c }

  predicate NamesUs(s: Text) {
    |s| == 6 && Lower(s[0]) == 114 && Lower(s[1]) == 112 && s[2] == 54 && s[3] == 53 && s[4] == 48 && s[5] == 50
  }

  /** The head of an image (rom_pump_open_fd). Where the program ends is a 32-bit sum, and 0 stands for
      the end of the file. */
  function Open(img: seq<u8>): (r: Option<Pump>)
  {
    match Gets(img, 0, RECORD_MAX)
    case None => None
    case Some(first) =>
      if !ShebangOk(first.text) then None
      else
        var classic := Pump(first.pos, 0, 0, false, false);
        match Gets(img, first.pos, RECORD_MAX)
        case None => Some(classic)
        case Some(second) =>
          var s := CString(second.text);
          if |s| >= 2 && s[0] == HASH && s[1] == MORE then
            var n := ParseUint(s[2..]);
            if n.None? || ParseUint(n.value.rest).None? then None
            else Some(Pump(second.pos, (second.pos + n.value.value) % WORD, first.pos, false, false))
          else Some(classic)
  }

  // ---------------- memory ----------------

  datatype Memory = Memory(sram: seq<u8>, xram: seq<u8>, regs: seq<u8>)

  predicate MemoryOk(m: Memory) { |m.sram| == RAM && |m.xram| == RAM && |m.regs| == REGS }

  /** Memory after a record (rom_deposit). Nothing is stored in $FF00-$FFF9, and the six bytes above are
      stored in the registers as well. */
  function Deposited(m: Memory, rec: Record, buf: seq<u8>): (r: Memory)
    requires MemoryOk(m) && Fits(rec) && rec.addr >= 0 && |buf| == rec.len
    ensures MemoryOk(r)
  {
    Memory(
      seq(RAM, a requires 0 <= a < RAM => if Covers(rec, a) && !(0xFF00 <= a < 0xFFFA) then buf[a - rec.addr]
        else m.sram[a]),
      seq(RAM, a requires 0 <= a < RAM => if Covers(rec, RAM + a) then buf[RAM + a - rec.addr] else m.xram[a]),
      seq(REGS, k requires 0 <= k < REGS =>
        if k >= 0x1A && Covers(rec, 0xFFE0 + k) then buf[0xFFE0 + k - rec.addr] else m.regs[k]))
  }

  datatype Loaded = Loaded(ok: bool, mem: Memory, pump: Pump)

  /** Records to the end, each into memory; ok once both halves of the reset vector came. */
  function LoadFrom(img: seq<u8>, p: Pump, m: Memory, crc: Crc): (r: Loaded)
    requires MemoryOk(m)
    ensures MemoryOk(r.mem)
    decreases |img| - p.pos
  {
    var n := Next(img, p, crc);
    match n.0
    case Eof => Loaded(p.vecLo && p.vecHi, m, p)
    case Error => Loaded(false, m, p)
    case Skipped => LoadFrom(img, n.1, m, crc)
    case Got(rec, buf) => LoadFrom(img, n.1, Deposited(m, rec, buf), crc)
  }

  class Loader {
    const crc: Crc
    const sram: array<u8>
    const xram: array<u8>
    const regs: array<u8>
    var assetsStart: nat  // where the asset directory begins, 0 when there is none

    ghost predicate Valid() {
      && sram.Length == RAM && xram.Length == RAM && regs.Length == REGS
      && sram != xram && xram != regs && regs != sram
    }

    ghost function Mem(): (m: Memory)
      requires Valid()
      reads sram, xram, regs
      ensures MemoryOk(m)
    {
      Memory(sram[..], xram[..], regs[..])
    }

    method Deposit(rec: Record, buf: seq<u8>)
      requires Valid() && Fits(rec) && rec.addr >= 0 && |buf| == rec.len
      modifies sram, xram, regs
      ensures Mem() == Deposited(old(Mem()), rec, buf)
    {
      if rec.addr > 0xFFFF {
        DepositHigh(rec, buf);
      } else {
        DepositLow(rec, buf);
      }
    }

    method DepositHigh(rec: Record, buf: seq<u8>)
      requires Valid() && Fits(rec) && rec.addr > 0xFFFF && |buf| == rec.len
      modifies xram
      ensures Mem() == Deposited(old(Mem()), rec, buf)
    {
      ghost var m := Mem();
      var base := rec.addr - RAM;
      for i := 0 to rec.len
        invariant forall a :: 0 <= a < RAM ==> xram[a] == if base <= a < base + i then buf[a - base] else m.xram[a]
      {
        xram[base + i] := buf[i];
      }
      assert sram[..] == m.sram && regs[..] == m.regs;
      DepositedAt(m, rec, buf, Mem());
    }

    method DepositLow(rec: Record, buf: seq<u8>)
      requires Valid() && Fits(rec) && 0 <= rec.addr <= 0xFFFF && |buf| == rec.len
      modifies sram, regs
      ensures Mem() == Deposited(old(Mem()), rec, buf)
    {
      ghost var m := Mem();
      for i := 0 to rec.len
        invariant forall a :: 0 <= a < RAM ==>
          sram[a] == if rec.addr <= a < rec.addr + i && !(0xFF00 <= a < 0xFFFA) then buf[a - rec.addr] else m.sram[a]
        invariant forall k :: 0 <= k < REGS ==>
          regs[k] == if k >= 0x1A && rec.addr <= 0xFFE0 + k < rec.addr + i then buf[0xFFE0 + k - rec.addr]
            else m.regs[k]
      {
        var a := rec.addr + i;
        if a < 0xFF00 || a >= 0xFFFA {
          sram[a] := buf[i];
        }
        if a >= 0xFFFA && a <= 0xFFFF {
          assert a % 32 == a - 0xFFE0;
          regs[a % 32] := buf[i];
        }
      }
      assert xram[..] == m.xram;
      DepositedAt(m, rec, buf, Mem());
    }

    /** Loads an image's records into memory (rom_load). */
    method Load(img: seq<u8>) returns (ok: bool)
      requires Valid()
      modifies this`assetsStart, sram, xram, regs
      ensures ok == (Open(img).Some? && LoadFrom(img, Open(img).value, old(Mem()), crc).ok)
      ensures Open(img).Some? ==> Mem() == LoadFrom(img, Open(img).value, old(Mem()), crc).mem
      ensures ok ==> assetsStart == Open(img).value.assetsStart
      ensures !ok ==> assetsStart == 0
    {
      hide Next, Deposited, Open;
      assetsStart := 0;
      var head := OpenImage(img);
      if head.None? {
        return false;
      }
      var p := head.value;
      ghost var whole := LoadFrom(img, p, Mem(), crc);
      ghost var first := p;
      while true
        modifies sram, xram, regs
        invariant LoadFrom(img, p, Mem(), crc) == whole
        invariant p.assetsStart == first.assetsStart
        decreases |img| - p.pos
      {
        NextKeeps(img, p, crc);
        var r := NextRecord(img, p);
        match r.0 {
          case Eof => break;
          case Error => return false;
          case Skipped =>
          case Got(rec, buf) => Deposit(rec, buf);
        }
        p := r.1;
      }
      ok := p.vecLo && p.vecHi;
      if ok {
        assetsStart := p.assetsStart;
      }
    }

    method OpenImage(img: seq<u8>) returns (r: Option<Pump>)
      ensures r == Open(img)
    {
      var first := ReadLine(img, 0, RECORD_MAX);
      if first.None? || !ShebangOk(first.value.text) {
        return None;
      }
      var pos := first.value.pos;
      var second := ReadLine(img, pos, RECORD_MAX);
      if second.Some? {
        var s := CString(second.value.text);
        if |s| >= 2 && s[0] == HASH && s[1] == MORE {
          var n := ParseNumber(s[2..]);
          if n.None? {
            return None;
          }
          var c := ParseNumber(n.value.rest);
          if c.None? {
            return None;
          }
          return Some(Pump(second.value.pos, (second.value.pos + n.value.value) % WORD, pos, false, false));
        }
      }
      return Some(Pump(pos, 0, 0, false, false));
    }

    method NextRecord(img: seq<u8>, p: Pump) returns (r: (Pumped, Pump))
      ensures r == Next(img, p, crc)
    {
      hide Gets, ParseRecord;
      if p.progEnd != 0 && p.pos >= p.progEnd {
        return (Eof, p);
      }
      var line := ReadLine(img, p.pos, RECORD_MAX);
      if line.None? {
        return (if p.progEnd != 0 then Error else Eof, p);
      }
      var parsed := RecordOf(line.value.text);
      if parsed.Skip? {
        return (Skipped, p.(pos := line.value.pos));
      }
      if !parsed.RecordOk? {
        return (Error, p);
      }
      var rec, at := parsed.rec, line.value.pos;
      if at >= SEEK_MAX || at + rec.len > |img| {
        return (Error, p);
      }
      var buf := img[at..at + rec.len];
      if crc(buf) != rec.crc {
        return (Error, p);
      }
      var lo := rec.addr <= 0xFFFC && rec.addr + rec.len > 0xFFFC;
      var hi := rec.addr <= 0xFFFD && rec.addr + rec.len > 0xFFFD;
      return (Got(rec, buf), p.(pos := at + rec.len, vecLo := p.vecLo || lo, vecHi := p.vecHi || hi));
    }

    method RecordOf(text: Text) returns (p: Parsed)
      ensures p == ParseRecord(text)
    {
      var s := CString(text);
      if s == [] || s[0] == HASH {
        return Skip;
      }
      var a := ParseNumber(s);
      if a.None? {
        return Malformed;
      }
      var b := ParseNumber(a.value.rest);
      if b.None? {
        return Malformed;
      }
      var c := ParseNumber(b.value.rest);
      if c.None? || c.value.rest != [] {
        return Malformed;
      }
      var r := Record(a.value.value, b.value.value, c.value.value);
      return if Fits(r) then RecordOk(r) else OutOfRange;
    }
  }

  /** A memory that holds at each address what a deposit leaves there is that deposit. */
  lemma DepositedAt(m: Memory, rec: Record, buf: seq<u8>, r: Memory)
    requires MemoryOk(m) && MemoryOk(r) && Fits(rec) && rec.addr >= 0 && |buf| == rec.len
    requires forall a :: 0 <= a < RAM ==>
      r.sram[a] == if Covers(rec, a) && !(0xFF00 <= a < 0xFFFA) then buf[a - rec.addr] else m.sram[a]
    requires forall a :: 0 <= a < RAM ==> r.xram[a] == if Covers(rec, RAM + a) then buf[RAM + a - rec.addr]
      else m.xram[a]
    requires forall k :: 0 <= k < REGS ==>
      r.regs[k] == if k >= 0x1A && Covers(rec, 0xFFE0 + k) then buf[0xFFE0 + k - rec.addr] else m.regs[k]
    ensures r == Deposited(m, rec, buf)
  {
    var d := Deposited(m, rec, buf);
    assert r.sram == d.sram && r.xram == d.xram && r.regs == d.regs;
  }

  /** What a record the pump hands over is: bytes of the file right after its header line, as many as the
      header says and of the checksum it says, for a range inside RAM or inside XRAM; and the vector
      flags are raised by exactly the records that hold their byte. */
  lemma NextGot(img: seq<u8>, p: Pump, crc: Crc)
    requires Next(img, p, crc).0.Got?
    ensures var rec, buf, q := Next(img, p, crc).0.rec, Next(img, p, crc).0.buf, Next(img, p, crc).1;
      && p.pos < q.pos - rec.len && q.pos <= |img| && buf == img[q.pos - rec.len..q.pos] && crc(buf) == rec.crc
      && 0 <= rec.addr && 0 < rec.len <= RECORD_MAX
      && (rec.addr + rec.len <= RAM || (RAM <= rec.addr && rec.addr + rec.len <= 2 * RAM))
      && (q.vecLo <==> p.vecLo || rec.addr <= 0xFFFC < rec.addr + rec.len)
      && (q.vecHi <==> p.vecHi || rec.addr <= 0xFFFD < rec.addr + rec.len)
  {
    hide ParseRecord, Gets;
  }

  lemma NextKeeps(img: seq<u8>, p: Pump, crc: Crc)
    ensures Next(img, p, crc).1.assetsStart == p.assetsStart
  {
    hide ParseRecord, Gets;
  }

  // ---------------- byte by byte ----------------

  /** "rp6502", each letter in either case. */
  predicate Spelled(s: Text, i: nat) {
    && i + 6 <= |s| && s[i] in {82, 114} && s[i + 1] in {80, 112}
    && s[i + 2] == 54 && s[i + 3] == 53 && s[i + 4] == 48 && s[i + 5] == 50
  }

  /** A shebang heads a ROM exactly when it spells the name somewhere before its first zero. */
  lemma ShebangMeans(s: Text)
    requires forall i :: 0 <= i < |s| ==> s[i] != 0
    ensures ShebangOk(s) <==> |s| >= 2 && s[0] == 35 && s[1] == 33 && exists i :: 2 <= i < |s| && Spelled(s, i)
  {
    WholeString(s);
    hide CString;
    forall i | 0 <= i < |s|
      ensures NamedAt(s, i) <==> Spelled(s, i)
    {
      if i + 6 <= |s| {
        assert s[i..i + 6] == [s[i], s[i + 1], s[i + 2], s[i + 3], s[i + 4], s[i + 5]];
      }
    }
  }

  lemma {:induction false} WholeString(s: Text)
    requires forall i :: 0 <= i < |s| ==> s[i] != 0
    ensures CString(s) == s
    decreases |s|
  {
    if s != [] {
      WholeString(s[1..]);
      assert s == [s[0]] + s[1..];
    }
  }

  /** A record is taken exactly when it has a byte, at most 1024, and lies inside the first 64 KB or the
      second. */
  lemma RecordMeans(r: Record)
    requires 0 <= r.addr < 0x1_0000_0000 && 0 <= r.len < 0x1_0000_0000
    ensures Fits(r) <==>
            1 <= r.len <= 1024 && (r.addr + r.len <= 65536 || (65536 <= r.addr && r.addr + r.len <= 131072))
  {
  }

  /** Where each byte of a record goes: below $FF00 to RAM, in $FF00-$FFF9 nowhere, in the six bytes above to
      RAM and the registers, and from $10000 on to XRAM; all else stays. */
  lemma DepositMeans(m: Memory, rec: Record, buf: seq<u8>, a: int)
    requires MemoryOk(m) && Fits(rec) && rec.addr >= 0 && |buf| == rec.len && 0 <= a < 0x20000
    ensures var d := Deposited(m, rec, buf);
      var k := a - rec.addr;
      && |d.sram| == 65536 && |d.xram| == 65536 && |d.regs| == 32
      && (a < 0xFF00 && 0 <= k < rec.len ==> d.sram[a] == buf[k])
      && (0xFF00 <= a < 0xFFFA ==> d.sram[a] == m.sram[a])
      && (0xFFFA <= a < 0x10000 && 0 <= k < rec.len ==> d.sram[a] == buf[k] && d.regs[a - 0xFFE0] == buf[k])
      && (0x10000 <= a && 0 <= k < rec.len ==> d.xram[a - 0x10000] == buf[k])
      && (a < 0x10000 && !(0 <= k < rec.len) ==> d.sram[a] == m.sram[a])
      && (0x10000 <= a && !(0 <= k < rec.len) ==> d.xram[a - 0x10000] == m.xram[a - 0x10000])
      && (0xFFE0 <= a < 0xFFFA || (0xFFFA <= a < 0x10000 && !(0 <= k < rec.len)) ==>
            d.regs[a - 0xFFE0] == m.regs[a - 0xFFE0])
  {
    if 0x10000 <= a {
      var x := a - 0x10000;
      assert Deposited(m, rec, buf).xram[x] == if Covers(rec, RAM + x) then buf[RAM + x - rec.addr] else m.xram[x];
    }
  }

  /** What a line is: there is one at any place in the file below 2^31; it is what comes before the first newline
      in the block read there, less one carriage return, or all of a block with none; and the next is right
      after the newline or the block. */
  lemma LineMeans(img: seq<u8>, pos: nat, cap: nat)
    requires cap > 1
    ensures Gets(img, pos, cap) == None <==> pos >= |img| || pos >= 2147483648
    ensures Gets(img, pos, cap).Some? ==>
      var r := Gets(img, pos, cap).value;
      var n := |r.text|;
      && n < cap && pos + n <= r.pos <= |img| && r.text == img[pos..pos + n]
      && (forall k :: pos <= k < pos + n ==> img[k] != 10)
      && (forall k :: pos + n <= k < r.pos ==> img[k] == 13 || img[k] == 10) && r.pos <= pos + n + 2
      && (img[r.pos - 1] == 10 || r.pos == pos + cap - 1 || r.pos == |img|)
  {
    if Gets(img, pos, cap).Some? {
      var size := if pos + cap - 1 <= |img| then cap - 1 else |img| - pos;
      var block := img[pos..pos + size];
      var i := LineEnd(block);
      hide LineEnd;
      var n := if i > 0 && block[i - 1] == CR then i - 1 else i;
      assert block[..n] == img[pos..pos + n];
      assert forall k :: pos <= k < pos + i ==> img[k] == block[k - pos];
      assert i < size ==> img[pos + i] == block[i];
    }
  }
}
