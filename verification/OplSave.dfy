/** The OPL2 savestate: what its 860 bytes say, which of them a load accepts, and that every
    machine at rest survives a save and a load (src/core/aud/opl.c, src/core/sys/sst.h). */
module OplSave {
  import opened Common
  import opened OplSpec
  import opened OplCaches
  import opened OplSlotModel
  import opened OplRules
  import opened OplRuns

  const SST_SIZE := 860
  const PARKED := 0xFFFF

  type Bytes = seq<u8>

  // ---------------- big-endian fields ----------------

  function U16(b: Bytes, o: nat): (x: int)
    requires o + 2 <= |b|
    ensures 0 <= x < 0x10000
  {
    var h: int := b[o];
    h * 256 + b[o + 1]
  }

  function U32(b: Bytes, o: nat): (x: int)
    requires o + 4 <= |b|
    ensures 0 <= x < WORD
  {
    U16(b, o) * 0x10000 + U16(b, o + 2)
  }

  function I32(b: Bytes, o: nat): int
    requires o + 4 <= |b|
  {
    if U32(b, o) >= 0x80000000 then U32(b, o) - WORD else U32(b, o)
  }

  function Put16(x: int): (b: Bytes)
    requires 0 <= x < 0x10000
    ensures |b| == 2 && U16(b, 0) == x
  {
    [x / 256, x % 256]
  }

  function Put32(x: int): (b: Bytes)
    requires 0 <= x < WORD
    ensures |b| == 4 && U32(b, 0) == x
  {
    var h, l := x / 0x10000, x % 0x10000;
    assert x == h * 0x10000 + l;
    [h / 256, h % 256, l / 256, l % 256]
  }

  function PutI32(x: int): (b: Bytes)
    requires -0x80000000 <= x < 0x80000000
    ensures |b| == 4 && I32(b, 0) == x
  {
    Put32(if x < 0 then x + WORD else x)
  }

  function ToByte(x: int): (b: bv8)
    requires 0 <= x < 256
  {
    x as bv8
  }

  function FromBytes(a: bv8, b: bv8, c: bv8, d: bv8): bv32 {
    ((a as bv32) << 24) | ((b as bv32) << 16) | ((c as bv32) << 8) | (d as bv32)
  }

  lemma FromBytesIs(N: bv32)
    ensures FromBytes(ByteAt(N, 24), ByteAt(N, 16), ByteAt(N, 8), ByteAt(N, 0)) == N
  {
  }

  function Noise(b: Bytes, o: nat): bv32
    requires o + 4 <= |b|
  {
    FromBytes(ToByte(b[o]), ToByte(b[o + 1]), ToByte(b[o + 2]), ToByte(b[o + 3]))
  }

  function PutNoise(N: bv32): (b: Bytes)
    ensures |b| == 4 && Noise(b, 0) == N
  {
    FromBytesIs(N);
    ByteBack(ByteAt(N, 24));
    ByteBack(ByteAt(N, 16));
    ByteBack(ByteAt(N, 8));
    ByteBack(ByteAt(N, 0));
    [ByteAt(N, 24) as int, ByteAt(N, 16) as int, ByteAt(N, 8) as int, ByteAt(N, 0) as int]
  }

  lemma ByteBack(x: bv8)
    ensures 0 <= x as int < 256 && ToByte(x as int) == x
  {
  }

  // ---------------- the image ----------------

  function StageCode(st: Stage): (x: int)
    ensures 0 <= x < 4
  {
    match st case Attack => 0 case Decay => 1 case Sustain => 2 case Release => 3
  }

  function StageOf(x: int): (st: Stage)
    ensures 0 <= x < 4 ==> StageCode(st) == x
  {
    if x == 0 then Attack else if x == 1 then Decay else if x == 2 then Sustain else Release
  }

  function Flag(x: bool): (b: u8) { if x then 1 else 0 }

  function LagByte(lag: seq<bool>): (b: u8)
    requires |lag| == 6
    ensures b < 64
  {
    Flag(lag[0]) + 2 * Flag(lag[1]) + 4 * Flag(lag[2]) + 8 * Flag(lag[3]) + 16 * Flag(lag[4]) + 32 * Flag(lag[5])
  }

  function LagOf(b: u8): (lag: seq<bool>)
    ensures |lag| == 6
  {
    [Bit(b, 1), Bit(b, 2), Bit(b, 4), Bit(b, 8), Bit(b, 16), Bit(b, 32)]
  }

  lemma LagBack(lag: seq<bool>)
    requires |lag| == 6
    ensures LagOf(LagByte(lag)) == lag
  {
    var b := LagByte(lag);
    assert b / 2 == Flag(lag[1]) + 2 * Flag(lag[2]) + 4 * Flag(lag[3]) + 8 * Flag(lag[4]) + 16 * Flag(lag[5]);
    assert b / 4 == Flag(lag[2]) + 2 * Flag(lag[3]) + 4 * Flag(lag[4]) + 8 * Flag(lag[5]);
    assert b / 8 == Flag(lag[3]) + 2 * Flag(lag[4]) + 4 * Flag(lag[5]);
    assert b / 16 == Flag(lag[4]) + 2 * Flag(lag[5]);
  }

  /** Where slot i, channel n and the globals start. */
  function SlotAt(i: nat): nat { 2 + 12 * i }

  function ChanAt(n: nat): nat { 218 + 10 * n }

  function EntryAt(k: nat): nat { 343 + 2 * k }

  function SavedSlot(b: Bytes, i: nat): Slot
    requires SlotAt(i) + 12 <= |b|
  {
    var o := SlotAt(i);
    Slot(U32(b, o) / 8192, U16(b, o + 4), StageOf(b[o + 6]),
      Registers(b[o + 7], b[o + 8], b[o + 9], b[o + 10], b[o + 11]))
  }

  /** The view three register bytes hold. */
  function SavedView(b: Bytes, o: nat): (v: View)
    requires o + 3 <= |b|
    ensures ViewOk(v)
  {
    var a0: int, b0: int, c0: int := b[o], b[o + 1], b[o + 2];
    View(b0 % 4 * 256 + a0, b0 / 4 % 8, Bit(b0, 32), c0 % 2 == 1, c0 / 2 % 8)
  }

  function SavedEntry(b: Bytes, k: nat): Write
    requires EntryAt(k) + 2 <= |b|
  {
    Write(b[EntryAt(k) + 1], b[EntryAt(k)])
  }

  function SavedCounters(b: Bytes): Counters
    requires |b| == SST_SIZE
  {
    Counters(b[312], U16(b, 313), U16(b, 315), b[317] != 0, b[318] != 0, b[319] != 0,
             U32(b, 320), b[324] != 0, b[325] != 0, b[326], b[327], Noise(b, 328))
  }

  function SavedChip(b: Bytes): Chip
    requires |b| == SST_SIZE
  {
    Chip(seq(18, i requires 0 <= i < 18 => SavedSlot(b, i)),
         seq(9, n requires 0 <= n < 9 => SavedView(b, ChanAt(n) + 4)),
         seq(9, n requires 0 <= n < 9 => SavedView(b, ChanAt(n) + 7)),
         seq(9, n requires 0 <= n < 9 => UnpackHistory(U32(b, ChanAt(n)))),
         b[308], b[309] != 0, b[310], LagOf(b[311]), SavedCounters(b),
         Bit(b[332], 8), Bit(b[332], 32), I32(b, 333), I32(b, 337))
  }

  /** The machine an image holds. */
  function SavedMachine(b: Bytes): Machine
    requires |b| == SST_SIZE
  {
    var len := if U16(b, 341) <= QUEUE_SIZE then U16(b, 341) else QUEUE_SIZE;
    Machine(SavedChip(b), seq(len, k requires 0 <= k < len => SavedEntry(b, k)), b[855], U32(b, 856))
  }

  predicate BlockOk(word: int) { word <= 0x10000 - 256 }

  predicate SlotAccepted(b: Bytes, i: nat)
    requires SlotAt(i) + 12 <= |b|
  {
    var o := SlotAt(i);
    U32(b, o) % 0x2000 == 0 && U16(b, o + 4) <= 0x1FF && b[o + 6] <= 3 && b[o + 11] <= 3
  }

  predicate ChanAccepted(b: Bytes, n: nat)
    requires ChanAt(n) + 10 <= |b|
  {
    var o := ChanAt(n);
    && Out13(Sign16(U32(b, o))) && Out13(Sign16(U32(b, o) / 0x10000))
    && b[o + 5] < 64 && b[o + 6] < 16 && b[o + 8] < 64 && b[o + 9] < 16
  }

  predicate SameView(a: View, b: View, fb: bool) {
    a.fnum == b.fnum && a.blk == b.blk && a.kon == b.kon && a.con == b.con && (!fb || a.fb == b.fb)
  }

  /** Two saved views may disagree where the saved lag lets them. */
  predicate LagAccepted(b: Bytes, n: nat)
    requires n < 9 && |b| == SST_SIZE
  {
    var mv, cv, lags := SavedView(b, ChanAt(n) + 7), SavedView(b, ChanAt(n) + 4), n < 6 && LagOf(b[311])[n];
    SameView(mv, cv, !lags) || (n < 3 && lags)
  }

  predicate GlobalsAccepted(b: Bytes)
    requires |b| == SST_SIZE
  {
    && b[309] <= 1 && b[311] <= 0x3F && b[312] <= 7 && U16(b, 313) <= 1023 && U16(b, 315) <= 511
    && b[317] <= 1 && b[318] <= 1 && b[319] <= 1
    && U32(b, 320) <= 0x3FFFF && b[324] <= 1 && b[325] <= 1 && b[326] <= 13 && b[327] <= 3
    && Noise(b, 328) != 0 && Noise(b, 328) <= 0x7FFFFF
    && b[332] == (if Bit(b[332], 8) then 8 else 0) + (if Bit(b[332], 32) then 32 else 0)
    && -8170 <= I32(b, 333) <= 8168 && -8170 <= I32(b, 337) <= 8168
  }

  predicate QueueAccepted(b: Bytes)
    requires |b| == SST_SIZE
  {
    && U16(b, 341) <= QUEUE_SIZE
    && (forall k :: 0 <= k < 256 && k < U16(b, 341) ==> IsReg(SavedEntry(b, k).reg))
    && 72 <= b[855] <= (if U16(b, 341) > 0 then 192 else 96) && b[855] % 24 == 0
    && U32(b, 856) <= MAX_DROPS
  }

  /** What a load checks. */
  predicate Accepted(b: Bytes)
    requires |b| == SST_SIZE
  {
    && (U16(b, 0) == PARKED || BlockOk(U16(b, 0)))
    && (forall i :: 0 <= i < 18 ==> SlotAccepted(b, i))
    && (forall n :: 0 <= n < 9 ==> ChanAccepted(b, n))
    && GlobalsAccepted(b)
    && (forall n :: 0 <= n < 9 ==> LagAccepted(b, n))
    && QueueAccepted(b)
  }

  // ---------------- what a save writes ----------------

  predicate SlotSaved(b: Bytes, o: nat, s: Slot) {
    && o + 12 <= |b| && U32(b, o) == 8192 * s.phase && U16(b, o + 4) == s.level && b[o + 6] == StageCode(s.stage)
    && Registers(b[o + 7], b[o + 8], b[o + 9], b[o + 10], b[o + 11]) == s.regs
  }

  predicate ViewSaved(b: Bytes, o: nat, v: View) {
    && o + 3 <= |b| && b[o] == v.fnum % 256 && b[o + 1] == 32 * Flag(v.kon) + 4 * v.blk + v.fnum / 256
    && b[o + 2] == 2 * v.fb + Flag(v.con)
  }

  predicate ChanSaved(b: Bytes, o: nat, hist: int, cv: View, mv: View) {
    o + 10 <= |b| && U32(b, o) == hist && ViewSaved(b, o + 4, cv) && ViewSaved(b, o + 7, mv)
  }

  const NO_WRITE: Write := Write(0, 0)  // what is saved past the end of the queue

  predicate EntrySaved(b: Bytes, o: nat, w: Write) {
    o + 2 <= |b| && b[o] == w.val && b[o + 1] == w.reg
  }

  predicate CountersSaved(b: Bytes, o: nat, n: Counters) {
    && o + 24 <= |b| && b[o + 4] == n.vib && U16(b, o + 5) == n.lfo && U16(b, o + 7) == n.tv
    && b[o + 9] == Flag(n.tdir) && b[o + 10] == Flag(n.tof) && b[o + 11] == Flag(n.tstep)
    && U32(b, o + 12) == n.T && b[o + 16] == Flag(n.carry) && b[o + 17] == Flag(n.sub)
    && b[o + 18] == n.egshift && b[o + 19] == n.eglow && Noise(b, o + 20) == n.N
  }

  predicate GlobalsSaved(b: Bytes, o: nat, c: Chip)
    requires |c.lag| == 6
  {
    && o + 33 <= |b| && b[o] == c.test && b[o + 1] == Flag(c.nts) && b[o + 2] == c.bd && b[o + 3] == LagByte(c.lag)
    && CountersSaved(b, o, c.cnt) && b[o + 24] == CymbalLatch(c) && I32(b, o + 25) == c.held15
         && I32(b, o + 29) == c.held1617
  }

  predicate QueueSaved(b: Bytes, m: Machine) {
    && |b| == SST_SIZE && |m.queue| <= QUEUE_SIZE && U16(b, 341) == |m.queue|
    && (forall k :: 0 <= k < |m.queue| ==> EntrySaved(b, EntryAt(k), m.queue[k]))
    && (forall k :: |m.queue| <= k < QUEUE_SIZE ==> EntrySaved(b, EntryAt(k), NO_WRITE))
    && b[855] == m.credit && U32(b, 856) == m.drops
  }

  /** b is the image of machine m mapped at x. */
  predicate Image(b: Bytes, x: int, m: Machine) {
    && |b| == SST_SIZE && WellFormed(m.chip) && U16(b, 0) == x
    && (forall i :: 0 <= i < 18 ==> SlotSaved(b, SlotAt(i), m.chip.slots[i]))
    && (forall n :: 0 <= n < 9 ==>
          ChanSaved(b, ChanAt(n), PackHistory(m.chip.hist[n].h1, m.chip.hist[n].h2), m.chip.cv[n], m.chip.mv[n]))
    && GlobalsSaved(b, 308, m.chip) && QueueSaved(b, m)
  }

  lemma SlotBack(b: Bytes, i: nat, s: Slot)
    requires i < 18 && SlotSaved(b, SlotAt(i), s) && SlotOk(s)
    ensures SavedSlot(b, i) == s && SlotAccepted(b, i)
  {
    hide U16, U32;
  }

  lemma ViewBack(b: Bytes, o: nat, v: View)
    requires ViewSaved(b, o, v) && ViewOk(v)
    ensures SavedView(b, o) == v && b[o + 1] < 64 && b[o + 2] < 16
  {
    var b0: int, f: int := b[o + 1], v.fnum / 256;
    assert b0 == 32 * Flag(v.kon) + 4 * v.blk + f;
    assert b0 / 4 == 8 * Flag(v.kon) + v.blk;
    assert b0 / 32 == Flag(v.kon);
    assert v.fnum == f * 256 + v.fnum % 256;
  }

  lemma HistoryBack(h: History, hist: int)
    requires Out13(h.h1) && Out13(h.h2) && hist == PackHistory(h.h1, h.h2)
    ensures UnpackHistory(hist) == h && Out13(Sign16(hist)) && Out13(Sign16(hist / 0x10000))
  {
    HistoryRoundTrip(h.h1, h.h2);
  }

  lemma CountersBack(b: Bytes, n: Counters)
    requires |b| == SST_SIZE && CountersSaved(b, 308, n) && CountersOk(n)
    ensures SavedCounters(b) == n
  {
    hide U16, U32, Noise;
  }

  lemma GlobalsBack(b: Bytes, c: Chip)
    requires |b| == SST_SIZE && |c.lag| == 6 && GlobalsSaved(b, 308, c) && CountersOk(c.cnt) && HeldOk(c)
    ensures GlobalsAccepted(b) && SavedCounters(b) == c.cnt && LagOf(b[311]) == c.lag
    ensures b[308] == c.test && (b[309] != 0) == c.nts && b[310] == c.bd
    ensures Bit(b[332], 8) == c.c3 && Bit(b[332], 32) == c.c5
    ensures I32(b, 333) == c.held15 && I32(b, 337) == c.held1617
  {
    hide U16, U32, I32, Noise;
    CountersBack(b, c.cnt);
    LagBack(c.lag);
    hide LagByte, LagOf;
  }

  lemma QueueBack(b: Bytes, m: Machine)
    requires QueueSaved(b, m) && QueueOk(m.queue) && CreditOk(m) && 0 <= m.drops <= MAX_DROPS
    ensures QueueAccepted(b)
    ensures SavedMachine(b).queue == m.queue && SavedMachine(b).credit == m.credit && SavedMachine(b).drops == m.drops
  {
    hide U16, U32, SavedChip, IsReg;
    forall k | 0 <= k < |m.queue|
      ensures SavedEntry(b, k) == m.queue[k]
    {
      assert EntrySaved(b, EntryAt(k), m.queue[k]);
    }
  }

  lemma LagsBack(b: Bytes, c: Chip, n: nat)
    requires |b| == SST_SIZE && WellFormed(c) && Coherent(c) && n < 9 && LagOf(b[311]) == c.lag
    requires SavedView(b, ChanAt(n) + 4) == c.cv[n] && SavedView(b, ChanAt(n) + 7) == c.mv[n]
    ensures LagAccepted(b, n)
  {
    hide SavedView, LagOf;
  }

  /** What a load asks of a machine: less than a run keeps. */
  predicate Loadable(m: Machine) {
    && WellFormed(m.chip) && Coherent(m.chip) && HeldOk(m.chip)
    && QueueOk(m.queue) && CreditOk(m) && 0 <= m.drops <= MAX_DROPS
  }

  /** Every machine at rest survives a save and a load. */
  lemma ImageLoads(b: Bytes, x: int, m: Machine)
    requires Image(b, x, m) && AtRest(m) && (x == PARKED || BlockOk(x))
    ensures Accepted(b) && SavedMachine(b) == m && U16(b, 0) == x
  {
    hide Image, WellFormed, Coherent, KeysAgree, HeldOk, CreditOk, QueueOk, U16;
    LoadableLoads(b, x, m);
  }

  lemma LoadableLoads(b: Bytes, x: int, m: Machine)
    requires Image(b, x, m) && Loadable(m) && (x == PARKED || BlockOk(x))
    ensures Accepted(b) && SavedMachine(b) == m && U16(b, 0) == x
  {
    hide U16, U32, SlotSaved, ChanSaved, GlobalsSaved, QueueSaved, SavedSlot, SavedView, SavedCounters, LagOf;
    hide UnpackHistory;
    hide SlotOk, ViewOk, SlotAccepted, GlobalsAccepted, QueueAccepted, LagAccepted, CountersOk, KeysAgree, Coherent;
    hide I32, Bit;
    var c := m.chip;
    forall i | 0 <= i < 18
      ensures SavedSlot(b, i) == c.slots[i] && SlotAccepted(b, i)
    {
      SlotBack(b, i, c.slots[i]);
    }
    GlobalsBack(b, c);
    forall n | 0 <= n < 9
      ensures ChanAccepted(b, n) && SavedView(b, ChanAt(n) + 4) == c.cv[n] && SavedView(b, ChanAt(n) + 7) == c.mv[n]
      ensures UnpackHistory(U32(b, ChanAt(n))) == c.hist[n] && LagAccepted(b, n)
    {
      ChanBack(b, n, c);
      LagsBack(b, c, n);
    }
    QueueBack(b, m);
    assert SavedChip(b) == c;
  }

  lemma ChanBack(b: Bytes, n: nat, c: Chip)
    requires |b| == SST_SIZE && WellFormed(c) && n < 9
    requires ChanSaved(b, ChanAt(n), PackHistory(c.hist[n].h1, c.hist[n].h2), c.cv[n], c.mv[n])
    ensures ChanAccepted(b, n) && SavedView(b, ChanAt(n) + 4) == c.cv[n] && SavedView(b, ChanAt(n) + 7) == c.mv[n]
    ensures UnpackHistory(U32(b, ChanAt(n))) == c.hist[n]
  {
    hide U16, U32, SavedView, UnpackHistory, ViewSaved, PackHistory;
    HistoryBack(c.hist[n], U32(b, ChanAt(n)));
    ViewBack(b, ChanAt(n) + 4, c.cv[n]);
    ViewBack(b, ChanAt(n) + 7, c.mv[n]);
  }

  /** What a load accepts is a machine the engine can go on from exactly when its keys agree with its
      stages and a raised test bit 7 goes with no vibrato position, and one a run keeps to exactly when its
      counters agree with each other as well. */
  lemma AcceptedMachine(b: Bytes)
    requires |b| == SST_SIZE && Accepted(b)
    ensures WellFormed(SavedMachine(b).chip)
    ensures AtRest(SavedMachine(b)) <==>
            KeysAgree(SavedMachine(b).chip) && (Bit(b[308], 0x80) ==> b[312] == 0)
    ensures CountersOk(SavedCounters(b))
    ensures InRun(SavedMachine(b)) <==> KeysAgree(SavedMachine(b).chip) && Clocked(SavedCounters(b), b[308])
  {
    hide U16, U32, I32, SavedSlot, SavedView, Noise, LagOf, UnpackHistory, SlotAccepted, ChanAccepted, LagAccepted;
    hide SlotOk, ViewOk, KeysAgree, IsReg, Bit;
    var c := SavedChip(b);
    forall i | 0 <= i < 18
      ensures SlotOk(c.slots[i])
    {
      AcceptedSlot(b, i);
    }
    forall n | 0 <= n < 9
      ensures Out13(c.hist[n].h1) && Out13(c.hist[n].h2)
    {
      AcceptedChan(b, n);
    }
    forall n | 0 <= n < 9
      ensures c.mv[n] == c.cv[n] || (n < 6 && c.lag[n] && (n < 3 || c.mv[n] == c.cv[n].(fb := c.mv[n].fb)))
    {
      AcceptedLag(b, n);
    }
  }

  lemma AcceptedSlot(b: Bytes, i: nat)
    requires i < 18 && |b| == SST_SIZE && SlotAccepted(b, i)
    ensures SlotOk(SavedSlot(b, i)) && U32(b, SlotAt(i)) == 8192 * SavedSlot(b, i).phase
  {
    hide U16, U32;
  }

  lemma AcceptedChan(b: Bytes, n: nat)
    requires n < 9 && |b| == SST_SIZE && ChanAccepted(b, n)
    ensures var h := UnpackHistory(U32(b, ChanAt(n))); Out13(h.h1) && Out13(h.h2)
  {
    hide U32, Sign16;
  }

  lemma AcceptedLag(b: Bytes, n: nat)
    requires n < 9 && |b| == SST_SIZE && LagAccepted(b, n)
    ensures var cv, mv, lag := SavedView(b, ChanAt(n) + 4), SavedView(b, ChanAt(n) + 7), LagOf(b[311]);
      mv == cv || (n < 6 && lag[n] && (n < 3 || mv == cv.(fb := mv.fb)))
  {
    hide SavedView, LagOf;
  }

  // ---------------- the bytes of a save ----------------

  function SlotBytes(P: int, level: int, stage: Stage, o: Registers): (b: Bytes)
    requires 0 <= P < WORD && P % 8192 == 0 && 0 <= level < 0x10000 && 0 <= o.ws < 4
    ensures |b| == 12 && SlotSaved(b, 0, Slot(P / 8192, level, stage, o))
  {
    Put32(P) + Put16(level) + [StageCode(stage), o.r20, o.r40, o.r60, o.r80, o.ws]
  }

  /** A view in three register bytes. */
  function ViewBytes(v: View): (b: Bytes)
    requires ViewOk(v)
    ensures |b| == 3 && ViewSaved(b, 0, v)
  {
    [v.fnum % 256, 32 * Flag(v.kon) + 4 * v.blk + v.fnum / 256, 2 * v.fb + Flag(v.con)]
  }

  function ChanBytes(hist: int, cv: View, mv: View): (b: Bytes)
    requires 0 <= hist < WORD && ViewOk(cv) && ViewOk(mv)
    ensures |b| == 10 && ChanSaved(b, 0, hist, cv, mv)
  {
    Put32(hist) + ViewBytes(cv) + ViewBytes(mv)
  }

  lemma Field16(b: Bytes, o: nat, x: Bytes)
    requires o + 2 <= |b| && |x| == 2 && b[o..o + 2] == x
    ensures U16(b, o) == U16(x, 0)
  {
    assert b[o] == x[0] && b[o + 1] == x[1];
  }

  lemma Field32(b: Bytes, o: nat, x: Bytes)
    requires o + 4 <= |b| && |x| == 4 && b[o..o + 4] == x
    ensures U32(b, o) == U32(x, 0) && I32(b, o) == I32(x, 0) && Noise(b, o) == Noise(x, 0)
  {
    hide FromBytes;
    assert b[o] == x[0] && b[o + 1] == x[1] && b[o + 2] == x[2] && b[o + 3] == x[3];
  }

  lemma JoinedCounters(x: Bytes, lfo: Bytes, tv: Bytes, y: Bytes, T: Bytes, z: Bytes, N: Bytes)
    requires |x| == 5 && |lfo| == 2 && |tv| == 2 && |y| == 3 && |T| == 4 && |z| == 4 && |N| == 4
    ensures var b := x + lfo + tv + y + T + z + N;
      && |b| == 24 && b[5..7] == lfo && b[7..9] == tv && b[12..16] == T && b[20..24] == N
      && b[0] == x[0] && b[1] == x[1] && b[2] == x[2] && b[3] == x[3] && b[4] == x[4]
      && b[9] == y[0] && b[10] == y[1] && b[11] == y[2]
      && b[16] == z[0] && b[17] == z[1] && b[18] == z[2] && b[19] == z[3]
  {
  }

  /** The 24 bytes of the first registers and the counters. */
  method PutCounters(test: u8, nts: bool, bd: u8, lag: seq<bool>, n: Counters) returns (b: Bytes)
    requires |lag| == 6 && CountersOk(n)
    ensures |b| == 24 && CountersSaved(b, 0, n)
    ensures b[0] == test && b[1] == Flag(nts) && b[2] == bd && b[3] == LagByte(lag)
  {
    hide U16, U32, Noise, LagByte, Flag;
    var lfo, tv, T, N := Put16(n.lfo), Put16(n.tv), Put32(n.T), PutNoise(n.N);
    var x, y, z := [test, Flag(nts), bd, LagByte(lag), n.vib], [Flag(n.tdir), Flag(n.tof), Flag(n.tstep)],
                   [Flag(n.carry), Flag(n.sub), n.egshift, n.eglow];
    b := x + lfo + tv + y + T + z + N;
    JoinedCounters(x, lfo, tv, y, T, z, N);
    Field16(b, 5, lfo);
    Field16(b, 7, tv);
    Field32(b, 12, T);
    Field32(b, 20, N);
  }

  lemma SlotShift(b: Bytes, p: nat, x: Bytes, o: nat, s: Slot)
    requires p + |x| <= |b| && b[p..p + |x|] == x && SlotSaved(x, o, s)
    ensures SlotSaved(b, p + o, s)
  {
    hide StageCode;
    assert forall k :: 0 <= k < |x| ==> x[k] == b[p + k];
  }

  lemma ChanShift(b: Bytes, p: nat, x: Bytes, o: nat, hist: int, cv: View, mv: View)
    requires p + |x| <= |b| && b[p..p + |x|] == x && ChanSaved(x, o, hist, cv, mv)
    ensures ChanSaved(b, p + o, hist, cv, mv)
  {
    hide Flag;
    assert forall k :: 0 <= k < |x| ==> x[k] == b[p + k];
  }

  /** The queue's bytes: its count, 256 entries with those past the count zero, the credit and the drops. */
  predicate QueueBytes(b: Bytes, q: seq<Write>, credit: int, drops: int) {
    && |b| == 519 && |q| <= QUEUE_SIZE && U16(b, 0) == |q|
    && (forall k :: 0 <= k < |q| ==> EntrySaved(b, 2 + 2 * k, q[k]))
    && (forall k :: |q| <= k < QUEUE_SIZE ==> EntrySaved(b, 2 + 2 * k, NO_WRITE))
    && b[514] == credit && U32(b, 515) == drops
  }

  lemma Joined(head: Bytes, slots: Bytes, chans: Bytes, regs: Bytes, rest: Bytes, queue: Bytes)
    requires |head| == 2 && |slots| == 216 && |chans| == 90 && |regs| == 24 && |rest| == 9 && |queue| == 519
    ensures var b := head + slots + chans + regs + rest + queue;
      && |b| == SST_SIZE && b[0..2] == head && b[2..218] == slots && b[218..308] == chans
      && b[308..332] == regs && b[332..341] == rest && b[341..860] == queue
  {
  }

  /** The parts of an image, each in its place, are the image. */
  lemma ImageOf(b: Bytes, slots: Bytes, chans: Bytes, regs: Bytes, rest: Bytes, queue: Bytes, x: int, m: Machine)
    requires WellFormed(m.chip) && |b| == SST_SIZE && U16(b, 0) == x
    requires b[2..218] == slots && b[218..308] == chans && b[308..332] == regs && b[332..341] == rest
    requires b[341..860] == queue
    requires forall i :: 0 <= i < 18 ==> SlotSaved(slots, 12 * i, m.chip.slots[i])
    requires forall n :: 0 <= n < 9 ==>
      ChanSaved(chans, 10 * n, PackHistory(m.chip.hist[n].h1, m.chip.hist[n].h2), m.chip.cv[n], m.chip.mv[n])
    requires regs[0] == m.chip.test && regs[1] == Flag(m.chip.nts) && regs[2] == m.chip.bd
    requires regs[3] == LagByte(m.chip.lag) && CountersSaved(regs, 0, m.chip.cnt)
    requires rest[0] == CymbalLatch(m.chip) && I32(rest, 1) == m.chip.held15 && I32(rest, 5) == m.chip.held1617
    requires QueueBytes(queue, m.queue, m.credit, m.drops)
    ensures Image(b, x, m)
  {
    hide SlotOk, ViewOk, U16, U32, I32, Noise, SlotSaved, ChanSaved, CountersSaved, EntrySaved, LagByte, CymbalLatch;
    hide PackHistory, CountersOk, StageCode, Flag, QueueBytes;
    forall i | 0 <= i < 18
      ensures SlotSaved(b, SlotAt(i), m.chip.slots[i])
    {
      SlotShift(b, 2, slots, 12 * i, m.chip.slots[i]);
    }
    forall n | 0 <= n < 9
      ensures ChanSaved(b, ChanAt(n), PackHistory(m.chip.hist[n].h1, m.chip.hist[n].h2), m.chip.cv[n], m.chip.mv[n])
    {
      ChanShift(b, 218, chans, 10 * n, PackHistory(m.chip.hist[n].h1, m.chip.hist[n].h2), m.chip.cv[n], m.chip.mv[n]);
    }
    GlobalsOf(b, regs, rest, m.chip);
    QueueOf(b, queue, m);
  }

  lemma GlobalsOf(b: Bytes, regs: Bytes, rest: Bytes, c: Chip)
    requires |b| == SST_SIZE && b[308..332] == regs && b[332..341] == rest && |c.lag| == 6
    requires regs[0] == c.test && regs[1] == Flag(c.nts) && regs[2] == c.bd
    requires regs[3] == LagByte(c.lag) && CountersSaved(regs, 0, c.cnt)
    requires rest[0] == CymbalLatch(c) && I32(rest, 1) == c.held15 && I32(rest, 5) == c.held1617
    ensures GlobalsSaved(b, 308, c)
  {
    hide U16, U32, I32, Noise, LagByte, CymbalLatch, Flag;
    Field16(b, 313, regs[5..7]);
    Field16(regs, 5, regs[5..7]);
    Field16(b, 315, regs[7..9]);
    Field16(regs, 7, regs[7..9]);
    Field32(b, 320, regs[12..16]);
    Field32(regs, 12, regs[12..16]);
    Field32(b, 328, regs[20..24]);
    Field32(regs, 20, regs[20..24]);
    Field32(b, 333, rest[1..5]);
    Field32(rest, 1, rest[1..5]);
    Field32(b, 337, rest[5..9]);
    Field32(rest, 5, rest[5..9]);
    assert forall k :: 0 <= k < 24 ==> b[308 + k] == regs[k];
    assert b[332] == rest[0];
  }

  lemma QueueOf(b: Bytes, queue: Bytes, m: Machine)
    requires |b| == SST_SIZE && b[341..860] == queue && QueueBytes(queue, m.queue, m.credit, m.drops)
    ensures QueueSaved(b, m)
  {
    hide U16, U32;
    assert forall k :: 0 <= k < 519 ==> b[341 + k] == queue[k];
    Field16(b, 341, queue[0..2]);
    Field16(queue, 0, queue[0..2]);
    Field32(b, 856, queue[515..519]);
    Field32(queue, 515, queue[515..519]);
    forall k | 0 <= k < |m.queue|
      ensures EntrySaved(b, EntryAt(k), m.queue[k])
    {
      assert EntrySaved(queue, 2 + 2 * k, m.queue[k]);
    }
    forall k | |m.queue| <= k < QUEUE_SIZE
      ensures EntrySaved(b, EntryAt(k), NO_WRITE)
    {
      assert EntrySaved(queue, 2 + 2 * k, NO_WRITE);
    }
  }

  lemma PackBack(hist: int)
    requires 0 <= hist < WORD
    ensures PackHistory(NewOutput(hist), OldOutput(hist)) == hist
  {
    var h, l := hist / 0x10000, hist % 0x10000;
    assert h % 0x10000 == h;
    assert Sign16(hist) % 0x10000 == l && Sign16(h) % 0x10000 == h;
  }

  /** A view as opl_get_view reads it, its KSL term still to be built. */
  function GetView(b: Bytes, o: nat): (v: OplView)
    requires o + 3 <= |b|
    ensures v.Regs() == SavedView(b, o)
  {
    var s := SavedView(b, o);
    OplView(s.fnum, s.blk, s.kon, s.con, s.fb, 0)
  }

  lemma SlotRead(s: OplSlot, b: Bytes, i: nat)
    requires |b| == SST_SIZE && i < 18 && SlotAccepted(b, i)
    requires s.P == U32(b, SlotAt(i)) && s.level == U16(b, SlotAt(i) + 4) && s.stage == StageOf(b[SlotAt(i) + 6])
    requires s.regs == SavedSlot(b, i).regs && s.rec == NO_RECORD && s.cache == NO_CACHE
    ensures Raw(s, SavedSlot(b, i))
  {
    hide U16;
  }

  lemma SavedArrays(b: Bytes)
    requires |b| == SST_SIZE
    ensures var c := SavedMachine(b).chip;
      && |c.slots| == 18 && |c.cv| == 9 && |c.mv| == 9 && |c.hist| == 9
      && (forall i :: 0 <= i < 18 ==> c.slots[i] == SavedSlot(b, i))
      && (forall n :: 0 <= n < 9 ==> c.cv[n] == SavedView(b, ChanAt(n) + 4) && c.mv[n] == SavedView(b, ChanAt(n) + 7))
      && (forall n :: 0 <= n < 9 ==> c.hist[n] == UnpackHistory(U32(b, ChanAt(n))))
      && c.nts == (b[309] != 0) && c.bd == b[310]
  {
  }

  lemma SavedGlobals(b: Bytes)
    requires |b| == SST_SIZE && GlobalsAccepted(b)
    ensures var c := SavedMachine(b).chip;
      && c.test == b[308] && c.lag == LagOf(b[311]) && c.cnt == SavedCounters(b) && c.cnt.vib == b[312]
      && CymbalLatch(c) == b[332] && c.held15 == I32(b, 333) && c.held1617 == I32(b, 337)
  {
    hide U16, U32, LagOf, I32, Noise;
  }

  // ---------------- what a save is good for ----------------

  /** The machine after a run from reset. */
  function FromReset(es: seq<Event>, rom: seq<int>): (r: Machine)
    requires RomOk(rom)
    ensures AtRest(r) && InRun(r)
  {
    hide AtRest, Clocked;
    ResetRests();
    ResetRuns();
    RunRuns(ResetMachine(), es, rom);
    Run(ResetMachine(), es, rom)
  }

  /** A save at any point of any run is accepted, and the machine it gives back speaks the words of the
      one that was saved in every later run. */
  lemma SavedRunGoesOn(es: seq<Event>, later: seq<Event>, b: Bytes, x: int, rom: seq<int>)
    requires RomOk(rom) && Image(b, x, FromReset(es, rom)) && BlockOk(x)
    ensures Accepted(b) && AtRest(SavedMachine(b))
    ensures Words(SavedMachine(b), later, rom) == Words(FromReset(es, rom), later, rom)
    ensures Run(SavedMachine(b), later, rom) == Run(FromReset(es, rom), later, rom)
  {
    hide Image, Accepted, SavedMachine, AtRest, ResetMachine, Words, RomOk, FromReset;
    ImageLoads(b, x, FromReset(es, rom));
  }

  // ---------------- byte by byte ----------------

  function Two(h: int, l: int): int { 256 * h + l }

  function Four(a: int, b: int, c: int, d: int): int { 0x100_0000 * a + 0x1_0000 * b + 256 * c + d }

  /** Where each byte of a save is: an operator in twelve, its phase moved thirteen bits up and most significant
      byte first. */
  lemma SlotLayout(b: Bytes, x: int, m: Machine, i: nat)
    requires Image(b, x, m) && i < 18
    ensures |b| == 860 && Two(b[0], b[1]) == x
    ensures var o, s := 2 + 12 * i, m.chip.slots[i];
      && Four(b[o], b[o + 1], b[o + 2], b[o + 3]) == 8192 * s.phase
      && Two(b[o + 4], b[o + 5]) == s.level
      && b[o + 6] == (match s.stage case Attack => 0 case Decay => 1 case Sustain => 2 case Release => 3)
      && b[o + 7] == s.regs.r20 && b[o + 8] == s.regs.r40 && b[o + 9] == s.regs.r60 && b[o + 10] == s.regs.r80
      && b[o + 11] == s.regs.ws
  {
    assert SlotSaved(b, SlotAt(i), m.chip.slots[i]);
    hide ChanSaved, GlobalsSaved, QueueSaved, WellFormed;
  }

  /** A channel in ten: its last two outputs in sixteen bits, the later first; and the registers as its carrier
      and then its modulator sees them. */
  lemma ChanLayout(b: Bytes, x: int, m: Machine, n: nat)
    requires Image(b, x, m) && n < 9
    ensures var o, h, c, v := 218 + 10 * n, m.chip.hist[n], m.chip.cv[n], m.chip.mv[n];
      && Two(b[o], b[o + 1]) == (if h.h1 < 0 then h.h1 + 0x1_0000 else h.h1)
      && Two(b[o + 2], b[o + 3]) == (if h.h2 < 0 then h.h2 + 0x1_0000 else h.h2)
      && b[o + 4] == c.fnum % 256 && b[o + 5] == (if c.kon then 32 else 0) + 4 * c.blk + c.fnum / 256
      && b[o + 6] == 2 * c.fb + (if c.con then 1 else 0)
      && b[o + 7] == v.fnum % 256 && b[o + 8] == (if v.kon then 32 else 0) + 4 * v.blk + v.fnum / 256
      && b[o + 9] == 2 * v.fb + (if v.con then 1 else 0)
  {
    var h := m.chip.hist[n];
    assert ChanSaved(b, ChanAt(n), PackHistory(h.h1, h.h2), m.chip.cv[n], m.chip.mv[n]);
    assert Out13(h.h1) && Out13(h.h2);
    hide SlotSaved, GlobalsSaved, QueueSaved, WellFormed;
    SixteenBits(h.h1);
    SixteenBits(h.h2);
    TwoHalves(b, ChanAt(n), h.h1 % 0x1_0000, h.h2 % 0x1_0000);
  }

  lemma SixteenBits(h: int)
    requires Out13(h)
    ensures h % 0x1_0000 == if h < 0 then h + 0x1_0000 else h
  {
  }

  lemma TwoHalves(b: Bytes, o: nat, h: int, l: int)
    requires o + 4 <= |b| && 0 <= h < 0x1_0000 && 0 <= l < 0x1_0000 && U32(b, o) == h * 0x1_0000 + l
    ensures Two(b[o], b[o + 1]) == h && Two(b[o + 2], b[o + 3]) == l
  {
  }

  /** The chip's own registers and counters in 33, and the queue: its length, 256 entries, value before
      register, zeros past its end, and the credit and the count of dropped writes. */
  lemma RestLayout(b: Bytes, x: int, m: Machine)
    requires Image(b, x, m)
    ensures var c, n := m.chip, m.chip.cnt;
      && b[308] == c.test && b[309] == (if c.nts then 1 else 0) && b[310] == c.bd
      && (forall k :: 0 <= k < 6 ==> (c.lag[k] <==> (b[311] / [1, 2, 4, 8, 16, 32][k]) % 2 == 1)) && b[311] < 64
      && b[312] == n.vib && Two(b[313], b[314]) == n.lfo && Two(b[315], b[316]) == n.tv
      && b[317] == (if n.tdir then 1 else 0) && b[318] == (if n.tof then 1 else 0)
           && b[319] == (if n.tstep then 1 else 0)
      && Four(b[320], b[321], b[322], b[323]) == n.T
      && b[324] == (if n.carry then 1 else 0) && b[325] == (if n.sub then 1 else 0)
      && b[326] == n.egshift && b[327] == n.eglow
      && b[332] == (if c.c3 then 8 else 0) + (if c.c5 then 32 else 0)
      && Four(b[333], b[334], b[335], b[336])
           == (if c.held15 < 0 then c.held15 + 0x1_0000_0000 else c.held15)
      && Four(b[337], b[338], b[339], b[340])
           == (if c.held1617 < 0 then c.held1617 + 0x1_0000_0000 else c.held1617)
    ensures Two(b[341], b[342]) == |m.queue| <= 256
    ensures forall k :: 0 <= k < 256 ==>
      && b[343 + 2 * k] == (if k < |m.queue| then m.queue[k].val else 0)
      && b[344 + 2 * k] == (if k < |m.queue| then m.queue[k].reg else 0)
    ensures b[855] == m.credit && Four(b[856], b[857], b[858], b[859]) == m.drops
  {
    hide SlotSaved, ChanSaved, SlotOk, ViewOk;
    GlobalsLayout(b, m.chip);
    QueueLayout(b, m);
  }

  lemma QueueLayout(b: Bytes, m: Machine)
    requires QueueSaved(b, m)
    ensures Two(b[341], b[342]) == |m.queue| <= 256
    ensures forall k :: 0 <= k < 256 ==>
      && b[343 + 2 * k] == (if k < |m.queue| then m.queue[k].val else 0)
      && b[344 + 2 * k] == (if k < |m.queue| then m.queue[k].reg else 0)
    ensures b[855] == m.credit && Four(b[856], b[857], b[858], b[859]) == m.drops
  {
    forall k | 0 <= k < 256
      ensures b[343 + 2 * k] == (if k < |m.queue| then m.queue[k].val else 0)
      ensures b[344 + 2 * k] == (if k < |m.queue| then m.queue[k].reg else 0)
    {
      assert EntrySaved(b, EntryAt(k), if k < |m.queue| then m.queue[k] else NO_WRITE);
    }
  }

  lemma GlobalsLayout(b: Bytes, c: Chip)
    requires |c.lag| == 6 && GlobalsSaved(b, 308, c)
    ensures var n := c.cnt;
      && b[308] == c.test && b[309] == (if c.nts then 1 else 0) && b[310] == c.bd
      && (forall k :: 0 <= k < 6 ==> (c.lag[k] <==> (b[311] / [1, 2, 4, 8, 16, 32][k]) % 2 == 1)) && b[311] < 64
      && b[312] == n.vib && Two(b[313], b[314]) == n.lfo && Two(b[315], b[316]) == n.tv
      && b[317] == (if n.tdir then 1 else 0) && b[318] == (if n.tof then 1 else 0)
           && b[319] == (if n.tstep then 1 else 0)
      && Four(b[320], b[321], b[322], b[323]) == n.T
      && b[324] == (if n.carry then 1 else 0) && b[325] == (if n.sub then 1 else 0)
      && b[326] == n.egshift && b[327] == n.eglow
      && b[332] == (if c.c3 then 8 else 0) + (if c.c5 then 32 else 0)
      && Four(b[333], b[334], b[335], b[336])
           == (if c.held15 < 0 then c.held15 + 0x1_0000_0000 else c.held15)
      && Four(b[337], b[338], b[339], b[340])
           == (if c.held1617 < 0 then c.held1617 + 0x1_0000_0000 else c.held1617)
  {
    LagBack(c.lag);
    assert LagOf(b[311]) == c.lag;
    hide LagByte, LagOf, Noise;
    LagBits(b[311], c.lag);
  }

  lemma LagBits(v: u8, lag: seq<bool>)
    requires |lag| == 6 && LagOf(v) == lag
    ensures forall k :: 0 <= k < 6 ==> (lag[k] <==> (v / [1, 2, 4, 8, 16, 32][k]) % 2 == 1)
  {
  }

  /** A signed output of thirteen bits in sixteen. */
  predicate Output(x: int) { x <= 4084 || x >= 61451 }

  /** What a load takes, by the byte: operators, */
  predicate SlotTaken(b: Bytes, i: nat)
    requires i < 18 && |b| == 860
  {
    var o := 2 + 12 * i;
    && Four(b[o], b[o + 1], b[o + 2], b[o + 3]) % 8192 == 0 && Two(b[o + 4], b[o + 5]) <= 511
    && b[o + 6] <= 3 && b[o + 11] <= 3
  }

  /** channels, whose two views are the same but for what is late, */
  predicate ChanTaken(b: Bytes, n: nat)
    requires n < 9 && |b| == 860
  {
    var o := 218 + 10 * n;
    var late := n < 6 && (b[311] / [1, 2, 4, 8, 16, 32][n]) % 2 == 1;
    && Output(Two(b[o], b[o + 1])) && Output(Two(b[o + 2], b[o + 3]))
    && b[o + 5] < 64 && b[o + 6] < 16 && b[o + 8] < 64 && b[o + 9] < 16
    && ((n < 3 && late)
        || (b[o + 4] == b[o + 7] && b[o + 5] == b[o + 8]
            && if late then b[o + 6] % 2 == b[o + 9] % 2 else b[o + 6] == b[o + 9]))
  }

  /** the chip's own, */
  predicate GlobalsTaken(b: Bytes)
    requires |b| == 860
  {
    && b[309] <= 1 && b[311] < 64 && b[312] <= 7 && Two(b[313], b[314]) <= 1023 && Two(b[315], b[316]) <= 511
    && b[317] <= 1 && b[318] <= 1 && b[319] <= 1 && Four(b[320], b[321], b[322], b[323]) <= 0x3FFFF
    && b[324] <= 1 && b[325] <= 1 && b[326] <= 13 && b[327] <= 3
    && b[328] == 0 && b[329] < 128 && (b[329] > 0 || b[330] > 0 || b[331] > 0) && b[332] in {0, 8, 32, 40}
    && Held(Four(b[333], b[334], b[335], b[336])) && Held(Four(b[337], b[338], b[339], b[340]))
  }

  predicate Held(x: int) { x <= 8168 || x >= 0x1_0000_0000 - 8170 }

  /** and the queue. */
  predicate QueueTaken(b: Bytes)
    requires |b| == 860
  {
    var n := Two(b[341], b[342]);
    && n <= 256 && (forall k :: 0 <= k < 256 && k < n ==> IsReg(b[344 + 2 * k]))
    && (b[855] == 72 || b[855] == 96 || (n > 0 && b[855] in {120, 144, 168, 192}))
    && Four(b[856], b[857], b[858], b[859]) <= 2147483647
  }

  /** A load takes an image exactly when it is mapped nowhere or inside memory and each of its parts is good. */
  lemma AcceptedMeans(b: Bytes)
    requires |b| == 860
    ensures Accepted(b) <==>
            && (Two(b[0], b[1]) == 65535 || Two(b[0], b[1]) <= 65280)
            && (forall i :: 0 <= i < 18 ==> SlotTaken(b, i)) && (forall n :: 0 <= n < 9 ==> ChanTaken(b, n))
            && GlobalsTaken(b) && QueueTaken(b)
  {
    hide GlobalsAccepted, QueueAccepted, GlobalsTaken, QueueTaken, SlotAccepted, SlotTaken, ChanAccepted, LagAccepted;
    hide ChanTaken, Two;
    assert U16(b, 0) == Two(b[0], b[1]) by { WordAt(b); }
    hide U16;
    GlobalsMean(b);
    QueueMeans(b);
    forall i | 0 <= i < 18
      ensures SlotAccepted(b, i) <==> SlotTaken(b, i)
    {
      SlotMeans(b, i);
    }
    forall n | 0 <= n < 9
      ensures ChanAccepted(b, n) && LagAccepted(b, n) <==> ChanTaken(b, n)
    {
      ChanMeans(b, n);
    }
  }

  lemma WordAt(b: Bytes)
    requires |b| == 860
    ensures U16(b, 0) == Two(b[0], b[1])
  {
  }

  lemma SlotMeans(b: Bytes, i: nat)
    requires |b| == 860 && i < 18
    ensures SlotAccepted(b, i) <==> SlotTaken(b, i)
  {
  }

  lemma SignedOutput(h: int, l: int)
    requires 0 <= h < 0x1_0000 && 0 <= l < 0x1_0000
    ensures Out13(Sign16(h * 0x1_0000 + l)) <==> Output(l)
    ensures Out13(Sign16((h * 0x1_0000 + l) / 0x1_0000)) <==> Output(h)
  {
    assert (h * 0x1_0000 + l) % 0x1_0000 == l && (h * 0x1_0000 + l) / 0x1_0000 == h && h % 0x1_0000 == h;
  }

  lemma SameRegisters(b: Bytes, o: nat)
    requires o + 10 <= |b| && b[o + 5] < 64 && b[o + 6] < 16 && b[o + 8] < 64 && b[o + 9] < 16
    ensures var cv, mv := SavedView(b, o + 4), SavedView(b, o + 7);
      && (SameView(mv, cv, true) <==> b[o + 4] == b[o + 7] && b[o + 5] == b[o + 8] && b[o + 6] == b[o + 9])
      && (SameView(mv, cv, false) <==> b[o + 4] == b[o + 7] && b[o + 5] == b[o + 8] && b[o + 6] % 2 == b[o + 9] % 2)
  {
    NoteByte(b[o + 5]);
    NoteByte(b[o + 8]);
  }

  lemma NoteByte(x: u8)
    requires x < 64
    ensures x == x % 4 + 4 * (x / 4 % 8) + (if Bit(x, 32) then 32 else 0)
  {
  }

  lemma ChanMeans(b: Bytes, n: nat)
    requires |b| == 860 && n < 9
    ensures ChanAccepted(b, n) && LagAccepted(b, n) <==> ChanTaken(b, n)
  {
    hide SavedView, SameView, Out13, Sign16, Output, Two, U32, LagOf;
    var o := 218 + 10 * n;
    WordParts(b, o);
    SignedOutput(Two(b[o], b[o + 1]), Two(b[o + 2], b[o + 3]));
    LagBits(b[311], LagOf(b[311]));
    if b[o + 5] < 64 && b[o + 6] < 16 && b[o + 8] < 64 && b[o + 9] < 16 {
      SameRegisters(b, o);
    }
  }

  lemma WordParts(b: Bytes, o: nat)
    requires o + 4 <= |b|
    ensures 0 <= Two(b[o], b[o + 1]) < 0x1_0000 && 0 <= Two(b[o + 2], b[o + 3]) < 0x1_0000
    ensures U32(b, o) == Two(b[o], b[o + 1]) * 0x1_0000 + Two(b[o + 2], b[o + 3])
  {
  }

  lemma GlobalsMean(b: Bytes)
    requires |b| == 860
    ensures GlobalsAccepted(b) <==> GlobalsTaken(b)
  {
    NoiseMeans(b[328], b[329], b[330], b[331]);
    LatchBits(b[332]);
    hide FromBytes, ToByte, Bit;
  }

  lemma LatchBits(x: u8)
    ensures x == (if Bit(x, 8) then 8 else 0) + (if Bit(x, 32) then 32 else 0) <==> x in {0, 8, 32, 40}
  {
  }

  lemma NoiseMeans(a: u8, b: u8, c: u8, d: u8)
    ensures var N := FromBytes(ToByte(a), ToByte(b), ToByte(c), ToByte(d));
      N != 0 && N <= 0x7FFFFF <==> a == 0 && b < 128 && (b > 0 || c > 0 || d > 0)
  {
    NoiseBytes(ToByte(a), ToByte(b), ToByte(c), ToByte(d));
    ByteOrder(a);
    ByteOrder(b);
    ByteOrder(c);
    ByteOrder(d);
    hide FromBytes, ToByte;
  }

  lemma NoiseBytes(a: bv8, b: bv8, c: bv8, d: bv8)
    ensures var N := FromBytes(a, b, c, d);
      N != 0 && N <= 0x7FFFFF <==> a == 0 && b < 128 && (b != 0 || c != 0 || d != 0)
  {
  }

  lemma ByteOrder(x: u8)
    ensures (ToByte(x) == 0 <==> x == 0) && (ToByte(x) < 128 <==> x < 128)
  {
  }

  lemma QueueMeans(b: Bytes)
    requires |b| == 860
    ensures QueueAccepted(b) <==> QueueTaken(b)
  {
    hide IsReg;
    var n := U16(b, 341);
    assert n == Two(b[341], b[342]) && U32(b, 856) == Four(b[856], b[857], b[858], b[859]);
    forall k | 0 <= k < 256
      ensures SavedEntry(b, k).reg == b[344 + 2 * k]
    {
    }
    Credits(b[855]);
    hide SavedEntry, U16, U32, Two, Four;
    if n <= 256 {
      assert (forall k :: 0 <= k < 256 && k < n ==> IsReg(SavedEntry(b, k).reg))
        <==> (forall k :: 0 <= k < 256 && k < n ==> IsReg(b[344 + 2 * k])) by {
        Entries(b, n);
      }
    }
  }

  lemma Entries(b: Bytes, n: int)
    requires |b| == 860
    ensures (forall k :: 0 <= k < 256 && k < n ==> IsReg(SavedEntry(b, k).reg))
      <==> (forall k :: 0 <= k < 256 && k < n ==> IsReg(b[344 + 2 * k]))
  {
    hide IsReg;
    if forall k :: 0 <= k < 256 && k < n ==> IsReg(SavedEntry(b, k).reg) {
      forall k | 0 <= k < 256 && k < n
        ensures IsReg(b[344 + 2 * k])
      {
        assert IsReg(SavedEntry(b, k).reg);
      }
    }
  }

  lemma Credits(x: int)
    ensures 72 <= x <= 192 && x % 24 == 0 <==> x in {72, 96, 120, 144, 168, 192}
    ensures 72 <= x <= 96 && x % 24 == 0 <==> x in {72, 96}
  {
  }

  // ---------------- images no run saves ----------------

  const RESET_SLOT: seq<u8> := [0, 0, 0, 0, 1, 0xFF, 3, 0, 0, 0, 0, 0]

  /** Byte k of the image of an engine just mapped at x. */
  function ResetByte(x: int, k: nat): u8
    requires BlockOk(x) && 0 <= x
  {
    if k == 0 then x / 256
    else if k == 1 then x % 256
    else if k < 218 then RESET_SLOT[(k - 2) % 12]
    else if k == 318 || k == 331 then 1
    else if k == 855 then 96
    else 0
  }

  function ResetImage(x: int): (b: Bytes)
    requires BlockOk(x) && 0 <= x
    ensures |b| == SST_SIZE
  {
    seq(SST_SIZE, k requires 0 <= k < SST_SIZE => ResetByte(x, k))
  }

  lemma ResetIsImage(x: int)
    requires BlockOk(x) && 0 <= x
    ensures Image(ResetImage(x), x, ResetMachine())
  {
    hide ResetByte, SlotSaved, ChanSaved, GlobalsSaved, QueueSaved, PackHistory, SlotOk, ViewOk, U16, ResetImage;
    ResetHead(x);
    ResetSlots();
    ResetRest(x);
    hide ResetMachine;
    forall i | 0 <= i < 18
      ensures SlotSaved(ResetImage(x), SlotAt(i), ResetMachine().chip.slots[i])
    {
      ResetSlotSaved(x, i);
    }
    forall n | 0 <= n < 9
      ensures ChanSaved(ResetImage(x), ChanAt(n), PackHistory(0, 0), View(0, 0, false, false, 0),
        View(0, 0, false, false, 0))
    {
      ResetChanSaved(x, n);
    }
  }

  lemma ResetHead(x: int)
    requires BlockOk(x) && 0 <= x
    ensures U16(ResetImage(x), 0) == x
  {
    var hi: int, lo: int := x / 256, x % 256;
    assert ResetImage(x)[0] == hi && ResetImage(x)[1] == lo;
    assert x == 256 * hi + lo;
  }

  lemma ResetSlotByte(x: int, i: nat, r: nat)
    requires BlockOk(x) && 0 <= x && i < 18 && r < 12
    ensures ResetByte(x, SlotAt(i) + r) == RESET_SLOT[r]
  {
    assert (12 * i + r) % 12 == r;
  }

  lemma ResetTail(x: int, k: nat)
    requires BlockOk(x) && 0 <= x && k >= 218
    ensures ResetByte(x, k) == if k == 318 || k == 331 then 1 else if k == 855 then 96 else 0
  {
  }

  lemma ResetSlotSaved(x: int, i: nat)
    requires BlockOk(x) && 0 <= x && i < 18
    ensures SlotSaved(ResetImage(x), SlotAt(i), Slot(0, 0x1FF, Release, Registers(0, 0, 0, 0, 0)))
  {
    hide ResetByte;
    var b, o := ResetImage(x), SlotAt(i);
    forall k | o <= k < o + 12
      ensures b[k] == RESET_SLOT[k - o]
    {
      ResetSlotByte(x, i, k - o);
    }
    hide ResetImage;
  }

  lemma ResetChanSaved(x: int, n: nat)
    requires BlockOk(x) && 0 <= x && n < 9
    ensures ChanSaved(ResetImage(x), ChanAt(n), PackHistory(0, 0), View(0, 0, false, false, 0),
      View(0, 0, false, false, 0))
  {
    hide ResetByte, PackHistory;
    var b, o := ResetImage(x), ChanAt(n);
    forall k | o <= k < o + 10
      ensures b[k] == 0
    {
      ResetTail(x, k);
    }
    hide ResetImage;
    assert PackHistory(0, 0) == 0 by { ZeroHistory(); }
  }

  lemma ZeroHistory()
    ensures PackHistory(0, 0) == 0
  {
  }

  lemma ResetRest(x: int)
    requires BlockOk(x) && 0 <= x
    ensures |ResetMachine().chip.lag| == 6 && GlobalsSaved(ResetImage(x), 308, ResetMachine().chip)
    ensures QueueSaved(ResetImage(x), ResetMachine())
  {
    hide *;
    ResetTails(x);
    ResetSlots();
    ResetModes();
    ResetCounters();
    ResetLatches();
    ResetQueue();
    PlainGlobals(ResetImage(x), ResetMachine().chip);
    PlainQueue(ResetImage(x), ResetMachine());
  }

  lemma PlainQueue(b: Bytes, m: Machine)
    requires ResetTailed(b) && m.queue == [] && m.credit == 96 && m.drops == 0
    ensures QueueSaved(b, m)
  {
    ZeroWords(b);
    hide U16, U32;
  }

  predicate ResetTailed(b: Bytes) {
    |b| == SST_SIZE &&
    forall k :: 308 <= k < SST_SIZE ==> b[k] == if k == 318 || k == 331 then 1 else if k == 855 then 96 else 0
  }

  lemma ResetTails(x: int)
    requires BlockOk(x) && 0 <= x
    ensures ResetTailed(ResetImage(x))
  {
    hide ResetByte;
    forall k | 308 <= k < SST_SIZE
      ensures ResetImage(x)[k] == if k == 318 || k == 331 then 1 else if k == 855 then 96 else 0
    {
      ResetTail(x, k);
    }
  }

  lemma PlainGlobals(b: Bytes, c: Chip)
    requires ResetTailed(b) && c.test == 0 && !c.nts && c.bd == 0 && c.lag == NO_LAG && c.cnt == COUNTERS_RESET
    requires !c.c3 && !c.c5 && c.held15 == 0 && c.held1617 == 0
    ensures |c.lag| == 6 && GlobalsSaved(b, 308, c)
  {
    ZeroNoise(b, 328);
    ZeroWords(b);
    hide Noise, U16, U32, I32;
  }

  lemma ZeroWords(b: Bytes)
    requires ResetTailed(b)
    ensures U16(b, 313) == 0 && U16(b, 315) == 0 && U32(b, 320) == 0 && I32(b, 333) == 0 && I32(b, 337) == 0
    ensures U16(b, 341) == 0 && U32(b, 856) == 0
  {
  }

  lemma ZeroNoise(b: Bytes, o: nat)
    requires o + 4 <= |b| && b[o] == 0 && b[o + 1] == 0 && b[o + 2] == 0 && b[o + 3] == 1
    ensures Noise(b, o) == 1
  {
  }

  lemma SlotKept(b: Bytes, k: nat, v: u8, o: nat, s: Slot)
    requires SlotSaved(b, o, s) && k < |b| && (k < o || o + 12 <= k)
    ensures SlotSaved(b[k := v], o, s)
  {
    assert b[k := v][o..o + 12] == b[o..o + 12];
    assert b[o..o + 12][0..12] == b[o..o + 12];
    SlotCut(b, o, s);
    SlotShift(b[k := v], o, b[o..o + 12], 0, s);
  }

  lemma SlotCut(b: Bytes, o: nat, s: Slot)
    requires SlotSaved(b, o, s)
    ensures SlotSaved(b[o..o + 12], 0, s)
  {
  }

  lemma ChanKept(b: Bytes, k: nat, v: u8, o: nat, hist: int, cv: View, mv: View)
    requires ChanSaved(b, o, hist, cv, mv) && k < |b| && (k < o || o + 10 <= k)
    ensures ChanSaved(b[k := v], o, hist, cv, mv)
  {
    hide U16;
    assert b[k := v][o..o + 4] == b[o..o + 4];
    Field32(b, o, b[o..o + 4]);
    Field32(b[k := v], o, b[o..o + 4]);
    hide U32;
  }

  /** Writing a stage over slot i's byte makes the image of a machine whose slot i is in that stage. */
  lemma Restaged(b: Bytes, x: int, m: Machine, i: nat, st: Stage)
    requires Image(b, x, m) && i < 18
    ensures Image(b[SlotAt(i) + 6 := StageCode(st)], x, AtStage(m, i, st))
  {
    hide SlotSaved, ChanSaved, GlobalsSaved, QueueSaved, U16, PackHistory, ViewOk, Out13, CountersOk;
    var k := SlotAt(i) + 6;
    var b' := b[k := StageCode(st)];
    forall j | 0 <= j < 18
      ensures SlotSaved(b', SlotAt(j), AtStage(m, i, st).chip.slots[j])
    {
      if j == i {
        StageWritten(b, SlotAt(i), m.chip.slots[i], st);
      } else {
        SlotKept(b, k, StageCode(st), SlotAt(j), m.chip.slots[j]);
      }
    }
    forall n | 0 <= n < 9
      ensures ChanSaved(b', ChanAt(n), PackHistory(m.chip.hist[n].h1, m.chip.hist[n].h2), m.chip.cv[n], m.chip.mv[n])
    {
      ChanKept(b, k, StageCode(st), ChanAt(n), PackHistory(m.chip.hist[n].h1, m.chip.hist[n].h2), m.chip.cv[n],
        m.chip.mv[n]);
    }
    TailKept(b, k, StageCode(st), m, AtStage(m, i, st));
    HeadKept(b, k, StageCode(st));
  }

  function AtStage(m: Machine, i: nat, st: Stage): Machine
    requires i < 18 && |m.chip.slots| == 18
  {
    m.(chip := m.chip.(slots := m.chip.slots[i := m.chip.slots[i].(stage := st)]))
  }

  lemma StageWritten(b: Bytes, o: nat, s: Slot, st: Stage)
    requires SlotSaved(b, o, s)
    ensures SlotSaved(b[o + 6 := StageCode(st)], o, s.(stage := st))
  {
  }

  lemma HeadKept(b: Bytes, k: nat, v: u8)
    requires 2 <= k < |b|
    ensures U16(b[k := v], 0) == U16(b, 0)
  {
  }

  /** Past the slots and channels an image holds a machine's globals and queue. */
  lemma TailKept(b: Bytes, k: nat, v: u8, m: Machine, n: Machine)
    requires |m.chip.lag| == 6 && GlobalsSaved(b, 308, m.chip) && QueueSaved(b, m) && k < 308
    requires n == m.(chip := m.chip.(slots := n.chip.slots))
    ensures GlobalsSaved(b[k := v], 308, n.chip) && QueueSaved(b[k := v], n)
  {
  }

  /** A byte of any saved image changed into one no run saves, and still accepted: a released slot put
      in attack with its key up. */
  lemma UnsavedStage(es: seq<Event>, b: Bytes, x: int, i: nat, rom: seq<int>)
    requires RomOk(rom) && Image(b, x, FromReset(es, rom)) && BlockOk(x) && i < 18
    requires !Key(FromReset(es, rom).chip, i)
    ensures var b' := b[SlotAt(i) + 6 := StageCode(Attack)];
      && Accepted(b') && !AtRest(SavedMachine(b'))
      && forall later, rom' :: RomOk(rom') ==> SavedMachine(b') != FromReset(later, rom')
  {
    var m := FromReset(es, rom);
    var a := AtStage(m, i, Attack);
    var b' := b[SlotAt(i) + 6 := StageCode(Attack)];
    Restaged(b, x, m, i, Attack);
    StagedLoadable(m, i);
    LoadableLoads(b', x, a);
    hide Image, Accepted, SavedMachine, FromReset, SlotAt;
  }

  lemma StagedLoadable(m: Machine, i: nat)
    requires AtRest(m) && i < 18 && !Key(m.chip, i)
    ensures Loadable(AtStage(m, i, Attack)) && !KeysAgree(AtStage(m, i, Attack).chip)
  {
    hide ViewOk, Out13, CountersOk, IsReg;
    var c := AtStage(m, i, Attack).chip;
    assert Key(c, i) == Key(m.chip, i);
    assert c.slots[i].stage == Attack;
  }

  /** And one the engine goes on from: a timer whose low bits were never read. */
  lemma UnsavedTimer(es: seq<Event>, b: Bytes, x: int, v: u8, rom: seq<int>)
    requires RomOk(rom) && Image(b, x, FromReset(es, rom)) && BlockOk(x)
    requires !FromReset(es, rom).chip.cnt.sub && v < 4 && v != FromReset(es, rom).chip.cnt.eglow
    ensures var b' := b[327 := v];
      && Accepted(b') && AtRest(SavedMachine(b'))
      && forall later, rom' :: RomOk(rom') ==> SavedMachine(b') != FromReset(later, rom')
  {
    var m := FromReset(es, rom);
    hide FromReset, ResetMachine, Accepted, SavedMachine;
    GlowImage(b, x, m, v);
    GlowRests(m, v);
    hide Image;
    ImageLoads(b[327 := v], x, WithGlow(m, v));
    hide AtRest, Clocked;
  }

  function WithGlow(m: Machine, v: u8): Machine { m.(chip := m.chip.(cnt := m.chip.cnt.(eglow := v))) }

  lemma GlowRests(m: Machine, v: u8)
    requires InRun(m) && !m.chip.cnt.sub && v < 4 && v != m.chip.cnt.eglow
    ensures AtRest(WithGlow(m, v)) && !InRun(WithGlow(m, v))
  {
    hide SlotOk, ViewOk, Out13, IsReg, DrumKey, TrailingZeros;
    var c, g := m.chip, WithGlow(m, v).chip;
    assert forall i :: 0 <= i < 18 ==> SlotView(g, i) == SlotView(c, i) && Key(g, i) == Key(c, i);
  }

  lemma GlowImage(b: Bytes, x: int, m: Machine, v: u8)
    requires Image(b, x, m) && v < 4
    ensures Image(b[327 := v], x, WithGlow(m, v))
  {
    hide SlotSaved, ChanSaved, GlobalsSaved, QueueSaved, U16, PackHistory, ViewOk, Out13, SlotOk;
    forall j | 0 <= j < 18
      ensures SlotSaved(b[327 := v], SlotAt(j), m.chip.slots[j])
    {
      SlotKept(b, 327, v, SlotAt(j), m.chip.slots[j]);
    }
    forall n | 0 <= n < 9
      ensures ChanSaved(b[327 := v], ChanAt(n), PackHistory(m.chip.hist[n].h1, m.chip.hist[n].h2), m.chip.cv[n],
        m.chip.mv[n])
    {
      ChanKept(b, 327, v, ChanAt(n), PackHistory(m.chip.hist[n].h1, m.chip.hist[n].h2), m.chip.cv[n], m.chip.mv[n]);
    }
    GlowWritten(b, m, v);
    HeadKept(b, 327, v);
  }

  lemma GlowWritten(b: Bytes, m: Machine, v: u8)
    requires |m.chip.lag| == 6 && GlobalsSaved(b, 308, m.chip) && QueueSaved(b, m)
    ensures GlobalsSaved(b[327 := v], 308, WithGlow(m, v).chip) && QueueSaved(b[327 := v], WithGlow(m, v))
  {
  }

  /** Both at once of an engine just mapped. */
  lemma UnsavedReset(x: int, i: nat, v: u8, rom: seq<int>)
    requires RomOk(rom) && 0 <= x && BlockOk(x) && i < 18 && 0 < v < 4
    ensures Accepted(ResetImage(x)[SlotAt(i) + 6 := StageCode(Attack)]) && Accepted(ResetImage(x)[327 := v])
    ensures !AtRest(SavedMachine(ResetImage(x)[SlotAt(i) + 6 := StageCode(Attack)]))
    ensures AtRest(SavedMachine(ResetImage(x)[327 := v]))
    ensures forall es, rom' :: RomOk(rom') ==>
      SavedMachine(ResetImage(x)[SlotAt(i) + 6 := StageCode(Attack)]) != FromReset(es, rom')
    ensures forall es, rom' :: RomOk(rom') ==> SavedMachine(ResetImage(x)[327 := v]) != FromReset(es, rom')
  {
    ResetIsImage(x);
    NotRun(rom);
    ResetKeysUp(i);
    ResetCounters();
    hide *;
    UnsavedStage([], ResetImage(x), x, i, rom);
    UnsavedTimer([], ResetImage(x), x, v, rom);
  }

  lemma NotRun(rom: seq<int>)
    requires RomOk(rom)
    ensures FromReset([], rom) == ResetMachine()
  {
    hide ResetMachine, AtRest;
  }

  lemma ResetKeysUp(i: nat)
    requires i < 18
    ensures WellFormed(ResetMachine().chip) && !Key(ResetMachine().chip, i)
  {
    ResetSlots();
    hide ResetMachine, WellFormed;
  }

  /** opl_park: the queue is emptied and the credit left. */
  function Park(m: Machine): Machine { m.(queue := []) }

  /** A parked engine's save is accepted exactly when its credit is at most 96. */
  lemma ParkedSave(b: Bytes, m: Machine)
    requires AtRest(m) && Image(b, PARKED, Park(m))
    ensures Accepted(b) <==> m.credit <= 96
  {
    var p := Park(m);
    if m.credit <= 96 {
      hide WellFormed, KeysAgree, Coherent, HeldOk, Image;
      ImageLoads(b, PARKED, p);
    } else {
      hide WellFormed, KeysAgree, Coherent, HeldOk, U16, U32;
      assert QueueSaved(b, p) && b[855] == m.credit && U16(b, 341) == 0;
    }
  }

  /** So a save is refused when the engine was parked after a sample that could not take a waiting write. */
  lemma ParkedSaveRefused(b: Bytes, m: Machine, rom: seq<int>)
    requires AtRest(m) && RomOk(rom) && |m.queue| > 0 && !Takes(m) && Image(b, PARKED, Park(Sampled(m, rom)))
    ensures !Accepted(b)
  {
    hide AtRest, Image, Sampled, Accepted, RomOk, Takes;
    MissThenTakes(m, rom);
    ParkedSave(b, Sampled(m, rom));
  }

  /** And such a sample is reached: two writes offered at once to a new engine, of which the first sample
      takes one and the second none. */
  lemma ParkedReached(b: Bytes, w: Write, rom: seq<int>)
    requires RomOk(rom) && IsReg(w.reg)
    ensures var m := FromReset([Offer(w), Offer(w), Tick], rom);
      && m.queue == [w] && m.credit == 72 && !Takes(m)
      && (Image(b, PARKED, Park(Sampled(m, rom))) ==> !Accepted(b))
  {
    hide *;
    ThreeSteps(w, rom);
    TwoOffered(w);
    var two := Push(Push(ResetMachine(), w), w);
    OneTaken(two, w, rom);
    var m := Sampled(two, rom);
    if Image(b, PARKED, Park(Sampled(m, rom))) {
      ParkedSaveRefused(b, m, rom);
    }
  }

  lemma ThreeSteps(w: Write, rom: seq<int>)
    requires RomOk(rom)
    ensures AtRest(Push(Push(ResetMachine(), w), w))
    ensures FromReset([Offer(w), Offer(w), Tick], rom) == Sampled(Push(Push(ResetMachine(), w), w), rom)
  {
    hide AtRest, ResetMachine, Push, Sample, Clocked;
    ResetRests();
    PushRests(ResetMachine(), w);
    PushRests(Push(ResetMachine(), w), w);
    var es := [Offer(w), Offer(w), Tick];
    assert es[1..] == [Offer(w), Tick] && [Offer(w), Tick][1..] == [Tick] && [Tick][1..] == [];
    var two := Push(Push(ResetMachine(), w), w);
    assert Run(Sampled(two, rom), [], rom) == Sampled(two, rom);
    assert Run(two, [Tick], rom) == Sampled(two, rom);
    assert Run(Push(ResetMachine(), w), [Offer(w), Tick], rom) == Run(two, [Tick], rom);
  }

  lemma TwoOffered(w: Write)
    requires IsReg(w.reg)
    ensures var m := Push(Push(ResetMachine(), w), w);
      m.queue == [w, w] && m.credit == 96 && m.chip.lag == NO_LAG
  {
    ResetQueue();
    ResetModes();
    hide ResetMachine, IsReg;
  }

  lemma OneTaken(m: Machine, w: Write, rom: seq<int>)
    requires AtRest(m) && RomOk(rom) && m.queue == [w, w] && m.credit == 96 && m.chip.lag == NO_LAG
    ensures Sampled(m, rom).queue == [w] && Sampled(m, rom).credit == 72 && AtRest(Sampled(m, rom))
    ensures |Sampled(m, rom).chip.lag| == 6 && !Takes(Sampled(m, rom))
  {
    hide AtRest, Rendered, Accumulator, Apply, RomOk, WellFormed, IsReg;
    RestLag(Sampled(m, rom));
    CommitStarts(m);
  }
}
