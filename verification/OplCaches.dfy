/** The arithmetic behind the engine's caches (src/core/aud/opl.c): byte-parallel rate indices,
    shifted phase increments, step-table words, the packed feedback history and the noise jump,
    each beside the rule of OplSpec it stands for. */
module OplCaches {
  import opened Common
  import opened OplSpec

  const WORD := 0x1_0000_0000

  // ---------------- rate indices ----------------

  /** A stage's rate and key scale as one number: 64 means no rate, and the top four stand for all above. */
  function RateIndex(r: int, ks: int): int {
    if r == 0 then 64 else if 4 * r + ks > 63 then 60 + ks % 4 else 4 * r + ks
  }

  /** 64 and 65 both index words of the step table that are always zero. */
  predicate SameIndex(a: int, b: int) {
    a == b || (64 <= a <= 65 && 64 <= b <= 65)
  }

  /** Four rates, a byte each, made into four rate indices at once. */
  function PackedIndices(R: bv32, ks: bv32): bv32 {
    var x := (R << 2) + ks * 0x01010101;
    var ov := ((x >> 6) & 0x01010101) * 0xff;
    var y := (x & !ov) | (((60 + (ks & 3)) * 0x01010101) & ov);
    var nz := (R | (R >> 1) | (R >> 2) | (R >> 3)) & 0x01010101;
    var z := (nz ^ 0x01010101) * 0xff;
    (y & !z) | ((64 * 0x01010101) & z)
  }

  function PackedRates(a: bv8, d: bv8, s: bv8, r: bv8): bv32 {
    (a as bv32) | ((d as bv32) << 8) | ((s as bv32) << 16) | ((r as bv32) << 24)
  }

  function ByteAt(w: bv32, n: bv6): bv8
    requires n <= 24
  {
    ((w >> n) & 0xff) as bv8
  }

  function StageShift(st: Stage): bv6 {
    match st case Attack => 0 case Decay => 8 case Sustain => 16 case Release => 24
  }

  /** The byte of a packed word that belongs to a stage. */
  function StageByte(w: bv32, st: Stage): (b: int)
    ensures 0 <= b < 256
  {
    ByteAt(w, StageShift(st)) as int
  }

  function NarrowIndex(R: bv8, ks: bv8): bv8 {
    if R == 0 then 64 else if 4 * R + ks > 63 then 60 + (ks & 3) else 4 * R + ks
  }

  /** No byte of the packed computation disturbs another. */
  lemma PackedBytes(a: bv8, d: bv8, s: bv8, r: bv8, ks: bv8)
    requires a < 16 && d < 16 && s < 16 && r < 16 && ks < 16
    ensures var w := PackedIndices(PackedRates(a, d, s, r), ks as bv32);
      && ByteAt(w, 0) == NarrowIndex(a, ks) && ByteAt(w, 8) == NarrowIndex(d, ks)
      && ByteAt(w, 16) == NarrowIndex(s, ks) && ByteAt(w, 24) == NarrowIndex(r, ks)
  {
  }

  function Nibble(x: int): (b: bv8)
    requires 0 <= x < 16
  {
    x as bv8
  }

  lemma NibbleInt(x: int)
    requires 0 <= x < 16
    ensures Nibble(x) as int == x && Nibble(x) < 16
  {
    assert (x as bv8) as int == x;
  }

  lemma NarrowIndexInt(R: bv8, ks: bv8)
    requires R < 16 && ks < 16
    ensures NarrowIndex(R, ks) as int == RateIndex(R as int, ks as int)
  {
    assert 0 <= R as int < 16 && 0 <= ks as int < 16;
    assert (4 * R + ks) as int == 4 * (R as int) + ks as int;
    assert (60 + (ks & 3)) as int == 60 + (ks as int) % 4;
  }

  lemma NibbleIndex(r: int, k: int)
    requires 0 <= r < 16 && 0 <= k < 16
    ensures NarrowIndex(Nibble(r), Nibble(k)) as int == RateIndex(r, k)
  {
    NibbleInt(r);
    NibbleInt(k);
    NarrowIndexInt(Nibble(r), Nibble(k));
  }

  /** The packed computation of opl_slot_eg. */
  function PackedWord(a: int, d: int, s: int, r: int, k: int): bv32
    requires 0 <= a < 16 && 0 <= d < 16 && 0 <= s < 16 && 0 <= r < 16 && 0 <= k < 16
  {
    PackedIndices(PackedRates(Nibble(a), Nibble(d), Nibble(s), Nibble(r)), Nibble(k) as bv32)
  }

  /** Every byte of it is its own stage's rate index. */
  lemma PackedWordIsIndices(a: int, d: int, s: int, r: int, k: int)
    requires 0 <= a < 16 && 0 <= d < 16 && 0 <= s < 16 && 0 <= r < 16 && 0 <= k < 16
    ensures var w := PackedWord(a, d, s, r, k);
      && StageByte(w, Attack) == RateIndex(a, k) && StageByte(w, Decay) == RateIndex(d, k)
      && StageByte(w, Sustain) == RateIndex(s, k) && StageByte(w, Release) == RateIndex(r, k)
  {
    NibbleInt(a); NibbleInt(d); NibbleInt(s); NibbleInt(r); NibbleInt(k);
    PackedBytes(Nibble(a), Nibble(d), Nibble(s), Nibble(r), Nibble(k));
    NibbleIndex(a, k); NibbleIndex(d, k); NibbleIndex(s, k); NibbleIndex(r, k);
  }

  function SlotIndex(o: Registers, v: View, nts: bool, st: Stage): int
    requires ViewOk(v)
  {
    RateIndex(RateReg(o, st), KeyScale(o.r20, v, nts))
  }

  predicate RatesCached(w: bv32, o: Registers, v: View, nts: bool)
    requires ViewOk(v)
  {
    forall st: Stage :: SameIndex(StageByte(w, st), SlotIndex(o, v, nts, st))
  }

  // ---------------- the NTS flip ----------------

  /** NTS only moves the low bit of the key scale, so it flips the low bit of every index. */
  predicate NtsFlips(r20: u8, v: View) {
    Bit(r20, 0x10) && (v.fnum / 256) % 2 != (v.fnum / 512) % 2
  }

  function FlipLow(x: int): int { if x % 2 == 0 then x + 1 else x - 1 }

  function FlipBytes(w: bv32): bv32 { w ^ 0x01010101 }

  lemma ByteFlips(w: bv32, n: bv6)
    requires n == 0 || n == 8 || n == 16 || n == 24
    ensures ByteAt(w ^ 0x01010101, n) == ByteAt(w, n) ^ 1
  {
  }

  lemma FlipInt(x: bv8)
    ensures (x ^ 1) as int == FlipLow(x as int)
  {
  }

  lemma StageByteFlips(w: bv32, st: Stage)
    ensures StageByte(FlipBytes(w), st) == FlipLow(StageByte(w, st))
  {
    ByteFlips(w, StageShift(st));
    FlipInt(ByteAt(w, StageShift(st)));
  }

  lemma RateIndexFlips(r: int, k: int, a: int)
    requires 0 <= r < 16 && 0 <= k < 16 && SameIndex(a, RateIndex(r, k))
    ensures SameIndex(FlipLow(a), RateIndex(r, FlipLow(k)))
  {
    var h := k / 2;
    assert k == 2 * h || k == 2 * h + 1;
    assert (4 * r + 2 * h) % 2 == 0 && (4 * r + 2 * h + 1) % 2 == 1;
  }

  lemma KeyScaleFlips(r20: u8, v: View, nts: bool)
    requires ViewOk(v)
    ensures KeyScale(r20, v, !nts) == if NtsFlips(r20, v) then FlipLow(KeyScale(r20, v, nts)) else KeyScale(r20, v, nts)
  {
  }

  /** The in-place flip of an NTS write keeps the indices right. */
  lemma NtsFlipKeepsRates(w: bv32, o: Registers, v: View, nts: bool)
    requires ViewOk(v) && RatesCached(w, o, v, nts)
    ensures RatesCached(if NtsFlips(o.r20, v) then FlipBytes(w) else w, o, v, !nts)
  {
    var w' := if NtsFlips(o.r20, v) then FlipBytes(w) else w;
    forall st: Stage ensures SameIndex(StageByte(w', st), SlotIndex(o, v, !nts, st)) {
      assert SameIndex(StageByte(w, st), SlotIndex(o, v, nts, st));
      KeyScaleFlips(o.r20, v, nts);
      if NtsFlips(o.r20, v) {
        StageByteFlips(w, st);
        RateIndexFlips(RateReg(o, st), KeyScale(o.r20, v, nts), StageByte(w, st));
      }
    }
  }

  // ---------------- the step an index takes ----------------

  function IndexRate(i: int): Rate {
    if i >= 64 then Rate(0, 0, 0) else Rate(1, i / 4, i % 4)
  }

  function IndexStep(i: int, t: Timer): (step: int)
    ensures 0 <= step <= 3
  {
    StepCode(IndexRate(i), t)
  }

  /** An index steps when its scaled rate does, and is one of 60 to 63 when the rate is at its top. */
  lemma IndexIsRate(r: int, k: int, i: int, t: Timer)
    requires 0 <= r < 16 && 0 <= k < 16 && SameIndex(i, RateIndex(r, k))
    ensures 0 <= i <= 65
    ensures IndexStep(i, t) == StepCode(ScaledRate(r, k), t)
    ensures IndexRate(i).rhi == 15 <==> ScaledRate(r, k).rhi == 15
    ensures 60 <= i < 64 <==> ScaledRate(r, k).rhi == 15
  {
    if r != 0 {
      assert IndexRate(i).rhi == ScaledRate(r, k).rhi && IndexRate(i).rlo == ScaledRate(r, k).rlo;
    }
  }

  // ---------------- the step table ----------------

  const BYTE: seq<int> := [1, 0x100, 0x10000, 0x1000000]

  /** Byte i of a table of words. */
  function TableByte(table: seq<int>, i: int): int
    requires 0 <= i < 4 * |table|
  {
    (table[i / 4] / BYTE[i % 4]) % 256
  }

  /** What a step code adds to a linear envelope; an attack's multiplier is twice it. */
  const LINEAR: seq<int> := [0, 1, 2, 4]

  /** The table's 18 linear words, then its 18 attack words, hold the step of every index. */
  ghost predicate TableOk(table: seq<int>, t: Timer) {
    && |table| == 36
    && forall i :: 0 <= i < 66 ==>
         TableByte(table, i) == LINEAR[IndexStep(i, t)] && TableByte(table, 72 + i) == 2 * LINEAR[IndexStep(i, t)]
  }

  /** The word of linear steps of rates 4j to 4j + 3 below 48. */
  function LowWord(j: int, t: Timer): int {
    if !t.sub then 0
    else if j + t.egshift == 12 then 0x01010101
    else if j + t.egshift == 13 then 0x01010000
    else if j + t.egshift == 14 then 0x01000100
    else 0
  }

  /** Twice the step of the sixteen fastest rates, four to a word, for each state of the timer. */
  const HIROW: seq<seq<seq<int>>> := [
    [[0x02020200, 0x04040402, 0x08080804, 0x08080808],
     [0x02000000, 0x04020202, 0x08040404, 0x08080808],
     [0x02020000, 0x04040202, 0x08080404, 0x08080808],
     [0x00000000, 0x02020202, 0x04040404, 0x08080808]],
    [[0x02020202, 0x04040402, 0x08080804, 0x08080808],
     [0x02020202, 0x04020202, 0x08040404, 0x08080808],
     [0x02020202, 0x04040202, 0x08080404, 0x08080808],
     [0x02020202, 0x02020202, 0x04040404, 0x08080808]]]

  function HighWord(j: int, t: Timer): int
    requires 0 <= j < 4 && TimerOk(t)
  {
    HIROW[if t.sub then 1 else 0][t.eglow][j]
  }

  /** The bytes of the four low words, and of their doubles. */
  lemma LowBytes(n: int)
    requires 0 <= n < 4
    ensures (0 / BYTE[n]) % 256 == 0
    ensures (0x01010101 / BYTE[n]) % 256 == 1 && (0x02020202 / BYTE[n]) % 256 == 2
    ensures (0x01010000 / BYTE[n]) % 256 == (if n >= 2 then 1 else 0)
    ensures (0x02020000 / BYTE[n]) % 256 == (if n >= 2 then 2 else 0)
    ensures (0x01000100 / BYTE[n]) % 256 == (if n % 2 == 1 then 1 else 0)
    ensures (0x02000200 / BYTE[n]) % 256 == (if n % 2 == 1 then 2 else 0)
  {
    assert n == 0 || n == 1 || n == 2 || n == 3;
  }

  lemma LowWordSteps(j: int, t: Timer, n: int)
    requires 0 <= j < 12 && TimerOk(t) && 0 <= n < 4
    ensures (LowWord(j, t) / BYTE[n]) % 256 == LINEAR[IndexStep(4 * j + n, t)]
    ensures (2 * LowWord(j, t) / BYTE[n]) % 256 == 2 * LINEAR[IndexStep(4 * j + n, t)]
  {
    assert IndexRate(4 * j + n) == Rate(1, j, n);
    LowBytes(n);
    var b := BYTE[n];
    assert IndexStep(4 * j + n, t) == StepCode(Rate(1, j, n), t);
  }

  function HighByte(j: int, t: Timer, n: int): (b: int)
    requires 0 <= j < 4 && 0 <= n < 4
    ensures b == 0 || b == 2 || b == 4 || b == 8
  {
    2 * LINEAR[StepCode(Rate(1, 12 + j, n), t)]
  }

  lemma HighWordBytes(j: int, t: Timer)
    requires 0 <= j < 4 && TimerOk(t)
    ensures HighWord(j, t) == HighByte(j, t, 0) + 0x100 * HighByte(j, t, 1) +
                              0x10000 * HighByte(j, t, 2) + 0x1000000 * HighByte(j, t, 3)
  {
    assert j == 0 || j == 1 || j == 2 || j == 3;
    assert t.eglow == 0 || t.eglow == 1 || t.eglow == 2 || t.eglow == 3;
  }

  lemma BytesOf(a: int, b: int, c: int, d: int, n: int)
    requires 0 <= a < 256 && 0 <= b < 256 && 0 <= c < 256 && 0 <= d < 256 && 0 <= n < 4
    ensures ((a + 0x100 * b + 0x10000 * c + 0x1000000 * d) / BYTE[n]) % 256 == [a, b, c, d][n]
  {
    var w := a + 0x100 * b + 0x10000 * c + 0x1000000 * d;
    if n == 1 {
      assert w / 0x100 == b + 0x100 * (c + 0x100 * d);
    } else if n == 2 {
      assert w / 0x10000 == c + 0x100 * d;
    } else if n == 3 {
      assert w / 0x1000000 == d;
    }
  }

  lemma HighWordSteps(j: int, t: Timer, n: int)
    requires 0 <= j < 4 && TimerOk(t) && 0 <= n < 4
    ensures (HighWord(j, t) / 2 / BYTE[n]) % 256 == LINEAR[IndexStep(48 + 4 * j + n, t)]
    ensures (HighWord(j, t) / BYTE[n]) % 256 == 2 * LINEAR[IndexStep(48 + 4 * j + n, t)]
  {
    assert IndexRate(48 + 4 * j + n) == Rate(1, 12 + j, n);
    HighWordBytes(j, t);
    BytesAndHalves(HighWord(j, t), HighByte(j, t, 0), HighByte(j, t, 1), HighByte(j, t, 2), HighByte(j, t, 3), n);
    assert n == 0 || n == 1 || n == 2 || n == 3;
  }

  lemma BytesAndHalves(w: int, a: int, b: int, c: int, d: int, n: int)
    requires 0 <= a < 256 && 0 <= b < 256 && 0 <= c < 256 && 0 <= d < 256 && 0 <= n < 4
    requires a % 2 == 0 && b % 2 == 0 && c % 2 == 0 && d % 2 == 0
    requires w == a + 0x100 * b + 0x10000 * c + 0x1000000 * d
    ensures (w / BYTE[n]) % 256 == [a, b, c, d][n] && (w / 2 / BYTE[n]) % 256 == [a / 2, b / 2, c / 2, d / 2][n]
  {
    BytesOf(a, b, c, d, n);
    BytesOf(a / 2, b / 2, c / 2, d / 2, n);
    assert w / 2 == a / 2 + 0x100 * (b / 2) + 0x10000 * (c / 2) + 0x1000000 * (d / 2);
  }

  /** Word j of the linear half is w, and of the attack half its double. */
  predicate WordIs(table: seq<int>, j: int, w: int) {
    |table| == 36 && 0 <= j < 18 && table[j] == w && table[18 + j] == 2 * w
  }

  /** A table with these words steps every index as section 3.3 does. */
  lemma TableFromWords(table: seq<int>, t: Timer)
    requires |table| == 36 && TimerOk(t)
    requires forall j :: 0 <= j < 12 ==> WordIs(table, j, LowWord(j, t))
    requires forall j :: 0 <= j < 4 ==> table[12 + j] == HighWord(j, t) / 2 && table[30 + j] == HighWord(j, t)
    requires WordIs(table, 16, 0)
    ensures TableOk(table, t)
  {
    forall i | 0 <= i < 66
      ensures TableByte(table, i) == LINEAR[IndexStep(i, t)] && TableByte(table, 72 + i) == 2 * LINEAR[IndexStep(i, t)]
    {
      var j, n := i / 4, i % 4;
      assert (72 + i) / 4 == 18 + j && (72 + i) % 4 == n;
      if j < 12 {
        assert WordIs(table, j, LowWord(j, t));
        LowWordSteps(j, t, n);
      } else if j < 16 {
        HighWordSteps(j - 12, t, n);
        assert i == 48 + 4 * (j - 12) + n;
        assert table[12 + (j - 12)] == HighWord(j - 12, t) / 2 && table[30 + (j - 12)] == HighWord(j - 12, t);
      } else {
        assert WordIs(table, 16, 0);
      }
    }
  }

  /** Which words of slower rates hold a step at each timer shift; word 17 belongs to no rate. */
  const RLW: seq<seq<int>> := [
    [17, 17, 17], [11, 17, 17], [10, 11, 17], [9, 10, 11], [8, 9, 10], [7, 8, 9], [6, 7, 8],
    [5, 6, 7], [4, 5, 6], [3, 4, 5], [2, 3, 4], [1, 2, 3], [0, 1, 2], [17, 0, 1]]

  lemma RlwWords(e: int)
    requires 0 <= e <= 13
    ensures |RLW[e]| == 3
    ensures forall k :: 0 <= k < 3 ==> RLW[e][k] == if 0 <= 12 + k - e < 12 then 12 + k - e else 17
  {
  }

  predicate LowIndex(j: int) { 0 <= j < 12 || 16 <= j < 18 }

  /** Between samples the words of rates below 48 are clear, but for those the last sub = 1 sample
      set, which the next sample clears. */
  ghost predicate TableIdle(table: seq<int>, rlw: seq<int>, sub: bool) {
    && |table| == 36 && |rlw| == 3 && (forall k :: 0 <= k < 3 ==> LowIndex(rlw[k]) && rlw[k] != 16)
    && forall j :: LowIndex(j) && (sub || j !in rlw) ==> WordIs(table, j, 0)
  }

  function SetWord(table: seq<int>, j: int, w: int): (r: seq<int>)
    requires |table| == 36 && 0 <= j < 18
    ensures |r| == 36 && WordIs(r, j, w)
    ensures forall k, v :: 0 <= k < 18 && k != j ==> (WordIs(r, k, v) <==> WordIs(table, k, v))
  {
    table[j := w][18 + j := 2 * w]
  }

  /** The words a sub = 1 sample sets. */
  function SetLow(table: seq<int>, x: seq<int>): (r: seq<int>)
    requires |table| == 36 && |x| == 3 && (forall k :: 0 <= k < 3 ==> 0 <= x[k] < 18)
    ensures |r| == 36
  {
    SetWord(SetWord(SetWord(SetWord(table, x[0], 0x01010101), x[1], 0x01010000), x[2], 0x01000100), 17, 0)
  }

  lemma SetLowWords(table: seq<int>, rlw: seq<int>, t: Timer)
    requires TableIdle(table, rlw, true) && TimerOk(t) && t.sub
    ensures RlwOk(t.egshift)
    ensures var r := SetLow(table, RLW[t.egshift]);
      && (forall j :: 0 <= j < 12 ==> WordIs(r, j, LowWord(j, t))) && WordIs(r, 16, 0)
      && TableIdle(r, RLW[t.egshift], false)
  {
    RlwWords(t.egshift);
    var x := RLW[t.egshift];
    var r := SetLow(table, x);
    forall j | LowIndex(j)
      ensures WordIs(r, j, if j < 12 then LowWord(j, t) else 0)
    {
      assert WordIs(table, j, 0);
    }
    forall j | LowIndex(j) && j !in x
      ensures WordIs(r, j, 0)
    {
      assert x[0] in x && x[1] in x && x[2] in x;
      assert WordIs(table, j, 0);
    }
  }

  predicate RlwOk(e: int) {
    0 <= e <= 13 && |RLW[e]| == 3 && forall k :: 0 <= k < 3 ==> LowIndex(RLW[e][k]) && RLW[e][k] != 16
  }

  /** The words a sub = 0 sample clears. */
  function ClearLow(table: seq<int>, x: seq<int>): (r: seq<int>)
    requires |table| == 36 && |x| == 3 && (forall k :: 0 <= k < 3 ==> 0 <= x[k] < 18)
    ensures |r| == 36
  {
    SetWord(SetWord(SetWord(table, x[0], 0), x[1], 0), x[2], 0)
  }

  lemma ClearLowWords(table: seq<int>, rlw: seq<int>)
    requires TableIdle(table, rlw, false)
    ensures forall j :: LowIndex(j) ==> WordIs(ClearLow(table, rlw), j, 0)
  {
    forall j | LowIndex(j)
      ensures WordIs(ClearLow(table, rlw), j, 0)
    {
      if j !in rlw {
        assert WordIs(table, j, 0);
      }
    }
  }

  // ---------------- phase increments ----------------

  /** Which of the seven increments each vibrato position uses, by depth: the F-number itself, or moved
      up or down by one, two or three of its top bits. */
  const VMAP: seq<seq<int>> := [[0, 1, 2, 1, 0, 4, 5, 4], [0, 2, 3, 2, 0, 5, 6, 5]]

  function Variant(dvb: bool, vib: int): (i: int)
    requires 0 <= vib < 8
    ensures 0 <= i < 7
  {
    VMAP[if dvb then 1 else 0][vib]
  }

  /** The engine's increment: the product mod 2^32 with bit 12 cleared, bit 0 of f too in block 0. */
  function ShiftedIncrement(f: int, blk: int, r20: u8): int
    requires 0 <= blk < 8
  {
    var kept := if blk == 0 then f - f % 2 else f;
    var x := (kept * (MT[r20 % 16] * 2048 * POW2[blk])) % WORD;
    x - (x / 4096) % 2 * 4096
  }

  function Deviations(fnum: int, r20: u8): (d: seq<int>)
    ensures |d| == 7
  {
    var a := if Bit(r20, 0x40) then fnum / 128 else 0;
    [0, a / 4, a / 2, a, -(a / 4), -(a / 2), -a]
  }

  function IncrementTable(v: View, r20: u8): (t: seq<int>)
    requires ViewOk(v)
    ensures |t| == 7
  {
    seq(7, i requires 0 <= i < 7 => ShiftedIncrement(v.fnum + Deviations(v.fnum, r20)[i], v.blk, r20))
  }

  lemma VariantValue(dvb: bool, vib: int)
    requires 0 <= vib < 8
    ensures Variant(dvb, vib) ==
            if vib % 4 == 0 then 0
            else (if vib < 4 then 0 else 3) + (if vib % 2 == 1 then 1 else 2) + (if dvb then 1 else 0)
  {
    assert vib == 0 || vib == 1 || vib == 2 || vib == 3 || vib == 4 || vib == 5 || vib == 6 || vib == 7;
  }

  lemma DeviationValues(f: int, r20: u8)
    ensures Deviations(f, r20) == if Bit(r20, 0x40)
      then [0, f / 512, f / 256, f / 128, -(f / 512), -(f / 256), -(f / 128)]
      else [0, 0, 0, 0, 0, 0, 0]
  {
    assert f / 128 / 4 == f / 512 && f / 128 / 2 == f / 256;
  }

  /** The variant's distance from f, by its number of top bits. */
  function TopBits(fnum: int, bits: int): int {
    if bits == 1 then fnum / 512 else if bits == 2 then fnum / 256 else if bits == 3 then fnum / 128 else 0
  }

  function VariantBits(vib: int, dvb: bool): int {
    if vib % 4 == 0 then 0 else (if vib % 2 == 1 then 1 else 2) + (if dvb then 1 else 0)
  }

  lemma DepthIsTopBits(fnum: int, vib: int, dvb: bool)
    requires 0 <= fnum < 1024 && 0 <= vib < 8
    ensures VibratoDepth(fnum, vib, dvb) == TopBits(fnum, VariantBits(vib, dvb))
    ensures 0 <= VibratoDepth(fnum, vib, dvb) <= fnum
  {
    assert fnum / 128 < 8 && fnum / 256 < 4 && fnum / 512 < 2;
  }

  /** The variant of a vibrato position is that position's F-number. */
  lemma VariantFnum(v: View, r20: u8, vib: int, dvb: bool)
    requires ViewOk(v) && 0 <= vib < 8
    ensures v.fnum + Deviations(v.fnum, r20)[Variant(dvb, vib)] ==
            if Bit(r20, 0x40) then VibratoFnum(v.fnum, vib, dvb) else v.fnum
    ensures 0 <= v.fnum + Deviations(v.fnum, r20)[Variant(dvb, vib)]
  {
    VariantValue(dvb, vib);
    DepthIsTopBits(v.fnum, vib, dvb);
    DeviationValues(v.fnum, r20);
    var d := Deviations(v.fnum, r20)[Variant(dvb, vib)];
    var r := TopBits(v.fnum, VariantBits(vib, dvb));
    assert VariantBits(vib, dvb) == Variant(dvb, vib) % 3 || (VariantBits(vib, dvb) == 3 && Variant(dvb, vib) % 3 == 0);
    if Bit(r20, 0x40) {
      assert d == if vib < 4 then r else -r;
      assert (v.fnum - r) % 1024 == v.fnum - r;
    } else {
      assert d == 0;
    }
  }

  lemma ModUnique(q: int, r: int)
    requires 0 <= r < WORD
    ensures (WORD * q + r) % WORD == r
  {
  }

  lemma ModMultiple(a: int, q: int)
    ensures (a + q * WORD) % WORD == a % WORD
  {
    var k, r := a / WORD, a % WORD;
    ModUnique(k + q, r);
    ModUnique(k, r);
    assert a + q * WORD == WORD * (k + q) + r;
  }

  lemma ShiftOfHalves(y: int)
    ensures var x := (4096 * y) % WORD; x - (x / 4096) % 2 * 4096 == (8192 * (y / 2)) % WORD
  {
    var q, r := y / 0x100000, y % 0x100000;
    var h, l := r / 2, r % 2;
    assert y == 0x100000 * q + 2 * h + l;
    assert y / 2 == 0x80000 * q + h;
    ModUnique(q, 4096 * r);
    ModUnique(q, 8192 * h);
    assert 4096 * y == WORD * q + 4096 * r;
    assert 8192 * (y / 2) == WORD * q + 8192 * h;
    assert (4096 * r) / 4096 == r;
  }

  lemma HalfOfPower(f: int, b: int)
    requires 1 <= b < 8
    ensures (f * POW2[b]) / 2 == f * (POW2[b] / 2) && POW2[b] == 2 * (POW2[b] / 2)
  {
    var k := POW2[b] / 2;
    assert POW2[b] == 2 * k;
    assert f * (2 * k) == 2 * (f * k);
  }

  lemma Regroup(f: int, m: int, k: int)
    ensures f * (m * 2048 * (2 * k)) == 4096 * ((f * k) * m)
  {
    assert m * 2048 * (2 * k) == 4096 * (k * m) by { assert m * 2048 * (2 * k) == 4096 * (m * k); }
    assert f * (4096 * (k * m)) == 4096 * (f * (k * m));
    assert f * (k * m) == (f * k) * m;
  }

  /** The engine's increment is the increment of section 2, thirteen bits up. */
  lemma ShiftedIncrementIs(f: int, blk: int, r20: u8)
    requires 0 <= f && 0 <= blk < 8
    ensures ShiftedIncrement(f, blk, r20) == (8192 * Increment(f, blk, r20)) % WORD
  {
    var mt := MT[r20 % 16];
    var h := (f * POW2[blk]) / 2;
    if blk == 0 {
      var g := f / 2;
      assert f - f % 2 == 2 * g && h == g;
      assert (2 * g) * (mt * 2048 * POW2[blk]) == 4096 * (g * mt);
    } else {
      HalfOfPower(f, blk);
      Regroup(f, mt, POW2[blk] / 2);
      assert POW2[blk] == 2 * (POW2[blk] / 2);
      assert f * (mt * 2048 * POW2[blk]) == 4096 * (h * mt);
    }
    ShiftOfHalves(h * mt);
  }

  /** A slot's cached increment at a vibrato position, thirteen bits up. */
  lemma CachedIncrement(r20: u8, v: View, vib: int, dvb: bool)
    requires ViewOk(v) && 0 <= vib < 8
    ensures IncrementTable(v, r20)[Variant(dvb, vib)] == (8192 * SlotIncrement(r20, v, vib, dvb)) % WORD
  {
    VariantFnum(v, r20, vib, dvb);
    ShiftedIncrementIs(v.fnum + Deviations(v.fnum, r20)[Variant(dvb, vib)], v.blk, r20);
  }

  lemma ScaleMod(x: int)
    ensures (8192 * x) % WORD == 8192 * (x % 0x80000)
  {
    var q, r := x / 0x80000, x % 0x80000;
    assert x == 0x80000 * q + r;
    ModUnique(q, 8192 * r);
    assert 8192 * x == WORD * q + 8192 * r;
  }

  lemma IncrementShape(v: View, r20: u8, i: int)
    requires ViewOk(v) && 0 <= i < 7
    ensures 0 <= IncrementTable(v, r20)[i] < WORD && IncrementTable(v, r20)[i] % 8192 == 0
  {
    DeviationSmall(v.fnum, r20, i);
    hide Deviations, Increment, ShiftedIncrement, ViewOk;
    var f := v.fnum + Deviations(v.fnum, r20)[i];
    assert IncrementTable(v, r20)[i] == ShiftedIncrement(f, v.blk, r20);
    ShiftedIncrementIs(f, v.blk, r20);
    ScaleMod(Increment(f, v.blk, r20));
    EightK(Increment(f, v.blk, r20) % 0x80000);
  }

  lemma EightK(x: int)
    requires 0 <= x < 0x80000
    ensures 0 <= 8192 * x < WORD && (8192 * x) % 8192 == 0
  {
  }

  lemma DeviationSmall(f: int, r20: u8, i: int)
    requires 0 <= f && 0 <= i < 7
    ensures 0 <= f + Deviations(f, r20)[i]
  {
    DeviationValues(f, r20);
    var d := Deviations(f, r20);
    hide Deviations, Bit;
    assert i == 0 || i == 1 || i == 2 || i == 3 || i == 4 || i == 5 || i == 6;
  }

  /** The 32-bit phase with an increment added. */
  function AddPhase(P: int, inc: int): int { (P + inc) % WORD }

  /** The ten bits of a 32-bit phase an operator reads. */
  function PhaseTop(P: int): int { P / 0x400000 }

  lemma PhaseMod(p: int, inc: int)
    requires 0 <= p < 0x80000
    ensures (p + inc % 0x80000) % 0x80000 == (p + inc) % 0x80000
  {
    var q, r := inc / 0x80000, inc % 0x80000;
    assert p + inc == 0x80000 * q + (p + r);
    if p + r < 0x80000 {
      assert (0x80000 * q + (p + r)) % 0x80000 == p + r;
    } else {
      assert 0x80000 * q + (p + r) == 0x80000 * (q + 1) + (p + r - 0x80000);
      assert (0x80000 * (q + 1) + (p + r - 0x80000)) % 0x80000 == p + r - 0x80000;
    }
  }

  /** Adding a shifted increment to a shifted phase, mod 2^32, is adding mod 2^19. */
  lemma ShiftedPhase(P: int, inc: int)
    requires 0 <= P < WORD && P % 8192 == 0
    ensures var p := (P + (8192 * inc) % WORD) % WORD;
      0 <= p < WORD && p % 8192 == 0 && p / 8192 == (P / 8192 + inc) % 0x80000
  {
    var p, i := P / 8192, inc % 0x80000;
    ScaleMod(inc);
    assert P + 8192 * i == 8192 * (p + i);
    ScaleMod(p + i);
    PhaseMod(p, inc);
  }

  // ---------------- the feedback history ----------------

  /** The signed value of the low sixteen bits of x. */
  function Sign16(x: int): int {
    var h := x % 0x10000;
    if h >= 0x8000 then h - 0x10000 else h
  }

  function PackHistory(h1: int, h2: int): int {
    h1 % 0x10000 * 0x10000 + h2 % 0x10000
  }

  /** The newer output of a packed history, and the one before. */
  function NewOutput(hist: int): int { Sign16(hist / 0x10000) }

  function OldOutput(hist: int): int { Sign16(hist) }

  function UnpackHistory(hist: int): History {
    History(NewOutput(hist), OldOutput(hist))
  }

  lemma SignOf(h: int)
    requires Out13(h)
    ensures 0 <= h % 0x10000 < 0x10000 && Sign16(h % 0x10000) == h
  {
    assert h % 0x10000 == if h < 0 then h + 0x10000 else h;
  }

  lemma HistoryRoundTrip(h1: int, h2: int)
    requires Out13(h1) && Out13(h2)
    ensures 0 <= PackHistory(h1, h2) < WORD && UnpackHistory(PackHistory(h1, h2)) == History(h1, h2)
  {
    SignOf(h1);
    SignOf(h2);
    var a, b := h1 % 0x10000, h2 % 0x10000;
    assert (a * 0x10000 + b) / 0x10000 == a && (a * 0x10000 + b) % 0x10000 == b;
  }

  const SHIFT: seq<int> := [0x4000, 0x8000, 0x10000, 0x20000, 0x40000, 0x80000, 0x100000]

  /** The sum shifted left by fbl, nothing for a shift of 32, then its top ten bits. */
  function FeedbackTop(sum: int, fbl: int): int
    requires fbl == 32 || 14 <= fbl <= 20
  {
    if fbl >= 32 then 0 else ((sum % WORD) * SHIFT[fbl - 14]) % WORD / 0x400000
  }

  lemma ShiftedSum(sum: int, k: int, d: int)
    requires k > 0 && d > 0 && k * d == 0x400000 && -8170 <= sum <= 8168 && 4 <= d
    ensures ((sum % WORD) * k) % WORD / 0x400000 == (sum / d) % 1024
  {
    var q, r := sum / d, sum % d;
    calc {
      sum * k;
      (d * q + r) * k;
      q * (k * d) + r * k;
      q * 0x400000 + r * k;
    }
    assert 0 <= r * k < 0x400000 by {
      assert r * k <= (d - 1) * k;
      assert (d - 1) * k == d * k - k;
    }
    var a, b := q / 1024, q % 1024;
    assert sum * k == WORD * a + (b * 0x400000 + r * k);
    ModUnique(a, b * 0x400000 + r * k);
    if sum < 0 {
      assert sum % WORD == sum + WORD;
      assert (sum + WORD) * k == sum * k + WORD * k;
      assert (sum % WORD) * k == WORD * (a + k) + (b * 0x400000 + r * k);
      ModUnique(a + k, b * 0x400000 + r * k);
    } else {
      assert sum % WORD == sum;
    }
  }

  /** It is the feedback term of section 4.3 modulo 1024. */
  lemma FeedbackTopIs(h: History, fb: int)
    requires 0 <= fb < 8 && Out13(h.h1) && Out13(h.h2)
    ensures FeedbackTop(h.h1 + h.h2, if fb == 0 then 32 else 13 + fb) == Feedback(h, fb) % 1024
  {
    if fb != 0 {
      var d := [512, 256, 128, 64, 32, 16, 8, 4][fb];
      assert SHIFT[fb - 1] * d == 0x400000;
      ShiftedSum(h.h1 + h.h2, SHIFT[fb - 1], d);
    }
  }

  /** c3 and c5 of a ten-bit phase, in their places. */
  function CymbalBits(p: int): int { (if Bit(p, 8) then 8 else 0) + (if Bit(p, 32) then 32 else 0) }

  // ---------------- noise ----------------

  /** Nine noise steps at once. */
  function NoiseJump(N: bv32): bv32 { ((N << 9) | (((N >> 14) ^ N) & 0x1ff)) & 0x7fffff }

  function NoiseNine(N: bv32): bv32 {
    NoiseBit(NoiseBit(NoiseBit(NoiseBit(NoiseBit(NoiseBit(NoiseBit(NoiseBit(NoiseBit(N)))))))))
  }

  function NoiseBit(N: bv32): bv32 { ((N << 1) | (((N >> 22) ^ (N >> 8)) & 1)) & 0x7fffff }

  lemma NoiseJumpIsNine(N: bv32)
    requires N < 0x800000
    ensures NoiseJump(N) == NoiseNine(N)
  {
  }

  lemma NoiseBitAlive(N: bv32)
    requires 0 < N < 0x800000
    ensures 0 < NoiseBit(N) < 0x800000 && NoiseStep(N, false) == NoiseBit(N)
  {
  }

  lemma NoiseAdd(N: bv32, ones: bool, a: nat, b: nat)
    ensures NoiseSteps(N, ones, a + b) == NoiseSteps(NoiseSteps(N, ones, a), ones, b)
    decreases a
  {
    hide NoiseStep;
    if a > 0 {
      NoiseAdd(NoiseStep(N, ones), ones, a - 1, b);
    }
  }

  lemma NoiseThree(N: bv32, ones: bool)
    ensures NoiseSteps(N, ones, 3) == NoiseStep(NoiseStep(NoiseStep(N, ones), ones), ones)
  {
    hide NoiseStep;
    var n1 := NoiseStep(N, ones);
    var n2 := NoiseStep(n1, ones);
    assert NoiseSteps(NoiseStep(n2, ones), ones, 0) == NoiseStep(n2, ones);
    assert NoiseSteps(n2, ones, 1) == NoiseStep(n2, ones);
    assert NoiseSteps(n1, ones, 2) == NoiseStep(n2, ones);
  }

  /** Nine steps of a live register are one jump. */
  lemma NineStepsJump(N: bv32)
    requires 0 < N < 0x800000
    ensures NoiseSteps(N, false, 9) == NoiseJump(N) && 0 < NoiseJump(N) < 0x800000
  {
    hide NoiseStep, NoiseBit, NoiseJump, NoiseSteps;
    var a1 := NoiseBit(N); var a2 := NoiseBit(a1); var a3 := NoiseBit(a2);
    var a4 := NoiseBit(a3); var a5 := NoiseBit(a4); var a6 := NoiseBit(a5);
    var a7 := NoiseBit(a6); var a8 := NoiseBit(a7);
    NoiseBitAlive(N); NoiseBitAlive(a1); NoiseBitAlive(a2); NoiseBitAlive(a3); NoiseBitAlive(a4);
    NoiseBitAlive(a5); NoiseBitAlive(a6); NoiseBitAlive(a7); NoiseBitAlive(a8);
    NoiseThree(N, false); NoiseThree(a3, false); NoiseThree(a6, false);
    NoiseAdd(N, false, 3, 6);
    NoiseAdd(a3, false, 3, 3);
    NoiseJumpIsNine(N);
  }

  function OnesJump(N: bv32): bv32 { ((N << 18) | 0x3ffff) & 0x7fffff }

  function OnesThree(N: bv32): bv32 { ((N << 3) | 7) & 0x7fffff }

  lemma ThreeOnes(N: bv32)
    ensures NoiseStep(NoiseStep(NoiseStep(N, true), true), true) == OnesThree(N)
  {
  }

  lemma SixThrees(N: bv32)
    ensures OnesThree(OnesThree(OnesThree(OnesThree(OnesThree(OnesThree(N)))))) == OnesJump(N)
    ensures OnesJump(N) != 0 && OnesJump(N) < 0x800000
  {
  }

  lemma EighteenOnes(N: bv32)
    ensures NoiseSteps(N, true, 18) == OnesJump(N) && 0 < OnesJump(N) < 0x800000
  {
    hide NoiseStep, NoiseSteps, OnesThree, OnesJump;
    var a := OnesThree(N); var b := OnesThree(a); var c := OnesThree(b); var d := OnesThree(c); var e := OnesThree(d);
    ThreeOnes(N); ThreeOnes(a); ThreeOnes(b); ThreeOnes(c); ThreeOnes(d); ThreeOnes(e);
    NoiseThree(N, true); NoiseThree(a, true); NoiseThree(b, true);
    NoiseThree(c, true); NoiseThree(d, true); NoiseThree(e, true);
    NoiseAdd(N, true, 3, 15); NoiseAdd(a, true, 3, 12); NoiseAdd(b, true, 3, 9);
    NoiseAdd(c, true, 3, 6); NoiseAdd(d, true, 3, 3);
    SixThrees(N);
  }

  lemma EighteenSteps(N: bv32)
    requires 0 < N < 0x800000
    ensures NoiseSteps(N, false, 18) == NoiseJump(NoiseJump(N)) && 0 < NoiseJump(NoiseJump(N)) < 0x800000
  {
    hide NoiseStep, NoiseSteps, NoiseJump;
    NoiseAdd(N, false, 9, 9);
    NineStepsJump(N);
    NineStepsJump(NoiseJump(N));
  }

  // ---------------- the envelope timer ----------------

  function Power2(k: nat): (p: int)
    ensures p > 0
  {
    if k == 0 then 1 else 2 * Power2(k - 1)
  }

  /** Only the low bits decide how many trailing zeros there are. */
  lemma TrailingZerosLow(t: int, k: nat)
    requires t > 0 && t % Power2(k) != 0
    ensures t % Power2(k) > 0 && TrailingZeros(t) == TrailingZeros(t % Power2(k)) < k
    decreases k
  {
    if k > 0 {
      var p := Power2(k - 1);
      HalfMod(t, p);
      if t % 2 == 0 {
        TrailingZerosLow(t / 2, k - 1);
      }
    }
  }

  lemma HalfMod(t: int, p: int)
    requires t > 0 && p > 0
    ensures t % (2 * p) == 2 * ((t / 2) % p) + t % 2
  {
    var q, r := t / 2 / p, t / 2 % p;
    assert t / 2 == p * q + r;
    assert t == (2 * p) * q + (2 * r + t % 2) by { assert p * q * 2 == (2 * p) * q; }
    ModOf(2 * p, q, 2 * r + t % 2);
  }

  lemma MulGe(m: int, k: int)
    requires m >= 0 && k >= 1
    ensures m * k >= m
  {
    assert m * k == m * (k - 1) + m;
  }

  lemma UniqueDivision(m: int, q: int, r: int, d: int, x: int)
    requires 0 <= r < m && 0 <= x < m && m * q + r == m * d + x
    ensures r == x
  {
    var k := q - d;
    assert m * k == x - r && m * (-k) == -(m * k);
    if k >= 1 {
      MulGe(m, k);
    } else if k <= -1 {
      MulGe(m, -k);
    }
  }

  lemma ModOf(m: int, q: int, r: int)
    requires 0 <= r < m
    ensures (m * q + r) % m == r
  {
    var t := m * q + r;
    assert t == m * (t / m) + t % m;
    UniqueDivision(m, q, r, t / m, t % m);
  }

  lemma EnvelopeShift(T: int)
    requires 0 <= T < 0x40000
    ensures T % 0x2000 != 0 ==> T % 0x2000 > 0 && TrailingZeros(T) == TrailingZeros(T % 0x2000) <= 12
  {
    assert Power2(13) == 0x2000 by {
      assert Power2(4) == 16;
      assert Power2(8) == 256;
      assert Power2(12) == 4096;
    }
    if T % 0x2000 != 0 {
      TrailingZerosLow(T, 13);
    }
  }

  // ---------------- the DAC ----------------

  /** The number of bits of t. */
  function BitLength(t: int): (n: nat)
    requires 0 <= t
    decreases t
  {
    if t == 0 then 0 else 1 + BitLength(t / 2)
  }

  lemma SixBits(t: int)
    requires 0 <= t < 64
    ensures BitLength(t) == if t >= 32 then 6 else if t >= 16 then 5 else if t >= 8 then 4
                            else if t >= 4 then 3 else if t >= 2 then 2 else if t >= 1 then 1 else 0
  {
    HalfBits(t);
    HalfBits(t / 2);
    HalfBits(t / 4);
    assert t / 2 / 2 == t / 4 && t / 4 / 2 == t / 8 && t / 8 < 8;
    HalfBits(t / 8);
    HalfBits(t / 16);
    HalfBits(t / 32);
    assert t / 32 / 2 == 0 && t / 8 / 2 == t / 16 && t / 16 / 2 == t / 32;
  }

  lemma HalfBits(t: int)
    requires 0 <= t
    ensures BitLength(t) == if t == 0 then 0 else 1 + BitLength(t / 2)
  {
  }

  /** The YM3014B word: clamped, its exponent from its top bits, the rest floored away. */
  function Dac(acc: int): int {
    var s := if acc > 0x7FFF then 0x7FFF else if acc < -0x8000 then -0x8000 else acc;
    var h := s / 512;
    var t := (if h < 0 then -h - 1 else h) % 64;
    SixBits(t);
    (s / POW2[BitLength(t)]) * POW2[BitLength(t)]
  }

  lemma DacIsWord(acc: int)
    ensures Dac(acc) == DacWord(acc)
  {
    hide BitLength;
    var s := Clamp16(acc);
    var h := s / 512;
    SixBits((if h < 0 then -h - 1 else h) % 64);
  }

  lemma CountersStay(n: Counters, test: u8)
    requires CountersOk(n)
    ensures CountersOk(CountersNext(n, test))
  {
    hide NoiseSteps, TrailingZeros;
    if Bit(test, 0x80) { EighteenOnes(n.N); } else { EighteenSteps(n.N); }
    var T := (n.T + (if n.carry || n.sub then 1 else 0)) % 0x40000;
    EnvelopeShift(T);
  }
}
