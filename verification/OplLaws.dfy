/** What the registers mean, as the sound of one sample shows it (src/core/aud/opl.md): every law here is
    about Sample and speaks in the register bits and plain arithmetic of the data sheet. */
module OplLaws {
  import opened Common
  import opened OplSpec
  import opened OplCaches
  import opened OplRuns

  // ---------------- one operator's sample ----------------

  /** Operator i and what it sees, with this sample's write made; and the operator after the sample. */
  function Was(m: Machine, i: int): Slot
    requires AtRest(m) && 0 <= i < 18
  {
    Commit(m).chip.slots[i]
  }

  function Seen(m: Machine, i: int): (v: View)
    requires AtRest(m) && 0 <= i < 18
    ensures ViewOk(v)
  {
    SlotView(Commit(m).chip, i)
  }

  predicate Keyed(m: Machine, i: int)
    requires AtRest(m) && 0 <= i < 18
  {
    Key(Commit(m).chip, i)
  }

  function Now(m: Machine, rom: seq<int>, i: int): Slot
    requires AtRest(m) && RomOk(rom) && 0 <= i < 18
  {
    SlotAfter(Commit(m).chip, rom, i);
    Sample(m, rom).0.chip.slots[i]
  }

  lemma NowSteps(m: Machine, rom: seq<int>, i: int)
    requires AtRest(m) && RomOk(rom) && 0 <= i < 18
    ensures var x := AroundAt(Commit(m).chip, i);
      && Now(m, rom, i) == StepSlot(Was(m, i), x) && x.view == Seen(m, i) && x.key == Keyed(m, i)
      && x.timer == Timer(m.chip.cnt.sub, m.chip.cnt.egshift, m.chip.cnt.eglow)
    ensures SlotOk(Was(m, i))
  {
    CommitClocks(m);
    SlotAfter(Commit(m).chip, rom, i);
    hide AtRest, Commit, StepSlot, Rendered, Key;
  }

  // ---------------- the envelope's clock ----------------

  /** Whether a rate's extra step comes at this one of four counts: in none, one, two or three of them. */
  predicate Extra(low: int, count: int) {
    || (low == 1 && count == 0) || (low == 2 && (count == 0 || count == 2)) || (low == 3 && count != 3)
  }

  /** By how much a rate of high part hi and low part lo moves a falling note when the envelope timer, which
      ticks on every second sample, stands at tick. A slow one moves at multiples of its period: at the
      odd ones, at every second even one when lo is 2 or 3, and at every second of the rest when lo is
      odd. A fast one moves on every sample. */
  function Gain(hi: int, lo: int, ticks: bool, tick: nat): (g: int)
    requires 0 < hi <= 15 && 0 <= lo < 4
    ensures 0 <= g <= 4
  {
    if hi < 12 then
      var period := Power2(11 - hi);
      var q := tick / period;
      if ticks && tick % period == 0 && (q % 2 == 1 || (q % 4 == 2 && lo >= 2) || (q % 8 == 4 && lo % 2 == 1)) then 1
      else 0
    else if hi == 12 then (if ticks || Extra(lo, tick % 4) then 1 else 0)
    else if hi == 13 then (if Extra(lo, tick % 4) then 2 else 1)
    else if hi == 14 then (if Extra(lo, tick % 4) then 4 else 2)
    else 4
  }

  /** The tick the envelopes of this sample go by: the timer's, or the one before when the timer has just
      skipped from 0 to 1 on wrapping. */
  predicate TicksAt(n: Counters, tick: nat) {
    && n.egshift == ShiftOf(tick) && n.eglow == tick % 4
    && (tick == n.T || (tick == 0 && n.T == 1 && n.sub))
  }

  lemma TickOfRun(m: Machine) returns (tick: nat)
    requires InRun(m)
    ensures TicksAt(m.chip.cnt, tick)
  {
    hide WellFormed, KeysAgree, Coherent, HeldOk, QueueOk, CreditOk;
    assert CountersOk(m.chip.cnt) by { CountersIn(m.chip); }
    var n := m.chip.cnt;
    assert ShiftOf(0) == 0;
    hide ShiftOf;
    tick := if n.eglow == n.T % 4 && n.egshift == ShiftOf(n.T) then n.T else 0;
  }

  lemma CountersIn(c: Chip)
    requires WellFormed(c)
    ensures CountersOk(c.cnt)
  {
  }

  lemma {:induction false} ZerosOfMultiple(t: nat, k: nat)
    requires t > 0
    ensures TrailingZeros(t) == k <==> t % Power2(k) == 0 && (t / Power2(k)) % 2 == 1
    decreases k
  {
    if k > 0 {
      var p := Power2(k - 1);
      if t % 2 == 0 {
        ZerosOfMultiple(t / 2, k - 1);
        HalvedMultiple(t, p);
      } else {
        OddMultiple(t, p);
      }
    }
  }

  lemma HalvedMultiple(t: nat, p: nat)
    requires t % 2 == 0 && p > 0
    ensures t % (2 * p) == 0 <==> (t / 2) % p == 0
    ensures t / (2 * p) == t / 2 / p
  {
    var h := t / 2;
    var q, r := h / p, h % p;
    assert h == q * p + r;
    assert t == q * (2 * p) + 2 * r by { assert 2 * (q * p) == q * (2 * p); }
    QuotientIs(t, 2 * p, q, 2 * r);
  }

  lemma QuotientIs(t: int, d: int, q: int, r: int)
    requires d > 0 && t == q * d + r && 0 <= r < d
    ensures t / d == q && t % d == r
  {
    assert t == d * q + r by { assert q * d == d * q; }
    ModOf(d, q, r);
    var k := t / d - q;
    assert t == d * (t / d) + t % d;
    assert d * k == 0 && d * (-k) == 0;
    if k >= 1 {
      MulGe(d, k);
    } else if k <= -1 {
      MulGe(d, -k);
    }
  }

  lemma OddMultiple(t: nat, p: nat)
    requires t % 2 == 1 && p > 0
    ensures t % (2 * p) != 0
  {
    HalfMod(t, p);
  }

  /** Zeros by quarters and eighths: what the three marks of a period are. */
  lemma ZerosMarks(t: nat, k: nat)
    requires t > 0
    ensures var p := Power2(k);
      && p > 0
      && (TrailingZeros(t) == k <==> t % p == 0 && (t / p) % 2 == 1)
      && (TrailingZeros(t) == k + 1 <==> t % p == 0 && (t / p) % 4 == 2)
      && (TrailingZeros(t) == k + 2 <==> t % p == 0 && (t / p) % 8 == 4)
  {
    ZerosOfMultiple(t, k);
    ZerosOfMultiple(t, k + 1);
    ZerosOfMultiple(t, k + 2);
    assert Power2(k + 2) == 2 * Power2(k + 1) == 4 * Power2(k);
    Marks(t, Power2(k));
  }

  lemma Marks(t: nat, p: nat)
    requires p > 0
    ensures t % (2 * p) == 0 && (t / (2 * p)) % 2 == 1 <==> t % p == 0 && (t / p) % 4 == 2
    ensures t % (4 * p) == 0 && (t / (4 * p)) % 2 == 1 <==> t % p == 0 && (t / p) % 8 == 4
  {
    TwiceOver(t, p);
    TwiceOver(t, 2 * p);
    var a, p2, p4 := t / p, 2 * p, 4 * p;
    assert 2 * p2 == p4;
    assert t / p2 == a / 2 && t / p4 == a / 2 / 2;
    EvenParts(a);
  }

  lemma EvenParts(a: int)
    ensures a % 4 == 2 <==> a % 2 == 0 && (a / 2) % 2 == 1
    ensures a % 8 == 4 <==> a % 2 == 0 && (a / 2) % 2 == 0 && (a / 2 / 2) % 2 == 1
  {
  }

  lemma TwiceOver(t: nat, p: nat)
    requires p > 0
    ensures t % (2 * p) == 0 <==> t % p == 0 && (t / p) % 2 == 0
    ensures t / (2 * p) == t / p / 2
  {
    var q, r := t / p, t % p;
    var a, b := q / 2, q % 2;
    assert t == q * p + r;
    assert q * p == a * (2 * p) + b * p by { assert q == 2 * a + b; assert (2 * a + b) * p == a * (2 * p) + b * p; }
    assert 0 <= b * p <= p by { if b == 1 { assert b * p == p; } else { assert b * p == 0; } }
    QuotientIs(t, 2 * p, a, b * p + r);
  }

  /** The step of section 3.3 is the gain, for any register rate but 0. */
  lemma StepIsGain(r: int, ks: int, t: Timer, tick: nat)
    requires 0 < r < 16 && 0 <= ks < 16 && t.egshift == ShiftOf(tick) && t.eglow == tick % 4
    ensures var rate := ScaledRate(r, ks);
      var code := StepCode(rate, t);
      && rate.rhi == (if r + ks / 4 > 15 then 15 else r + ks / 4) && rate.rlo == ks % 4
      && Gain(rate.rhi, rate.rlo, t.sub, tick) == GainOf(code)
  {
    var rate := ScaledRate(r, ks);
    if rate.rhi < 12 {
      var k := 11 - rate.rhi;
      if tick == 0 {
        assert ShiftOf(tick) == 0;
      } else {
        ZerosMarks(tick, k);
        if tick % 0x2000 == 0 {
          ZerosOfMultiple(tick, k);
          LongZeros(tick);
        }
      }
      hide Power2, TrailingZeros;
    }
  }

  /** A tick with thirteen low zeros is no mark of any rate that steps. */
  lemma LongZeros(t: nat)
    requires t > 0 && t % 0x2000 == 0
    ensures TrailingZeros(t) >= 13
  {
    hide TrailingZeros;
    var j := TrailingZeros(t);
    if j < 13 {
      ZerosOfMultiple(t, j);
      assert Power2(j) * Power2(13 - j) == 8192 by { PowTable(); }
      assert Power2(13 - j) == 2 * Power2(12 - j);
      MultipleEven(t, Power2(j), Power2(13 - j));
    }
  }

  lemma MultipleEven(t: nat, p: nat, q: nat)
    requires p > 0 && q > 0 && q % 2 == 0 && p * q == 8192 && t % 8192 == 0
    ensures t % p == 0 && (t / p) % 2 == 0
  {
    var n, h := t / 8192, q / 2;
    assert t == n * (p * q) == (n * q) * p;
    assert n * q == 2 * (n * h) by { assert q == 2 * h; }
    QuotientIs(t, p, n * q, 0);
  }

  lemma PowTable()
    ensures Power2(0) == 1 && Power2(1) == 2 && Power2(2) == 4 && Power2(3) == 8 && Power2(4) == 16 && Power2(5) == 32
    ensures Power2(6) == 64 && Power2(7) == 128 && Power2(8) == 256 && Power2(9) == 512 && Power2(10) == 1024
    ensures Power2(11) == 2048 && Power2(12) == 4096 && Power2(13) == 8192
  {
    assert Power2(4) == 16;
    assert Power2(8) == 256;
    assert Power2(12) == 4096;
  }

  // ---------------- the envelope ----------------

  /** Four bits of the block and the F-number, or with KSR up one more: how much faster higher notes move. */
  function NoteScale(r20: u8, v: View, nts: bool): (ks: int)
    requires ViewOk(v)
    ensures 0 <= ks < 16
  {
    if (r20 / 16) % 2 == 1 then 2 * v.blk + (if nts then v.fnum / 256 % 2 else v.fnum / 512) else v.blk / 2
  }

  /** What a rate's four bits and the note's scale come to at this tick; no bits, no move. */
  function Moves(bits: int, ks: int, ticks: bool, tick: nat): (g: int)
    requires 0 <= bits < 16 && 0 <= ks < 16
    ensures 0 <= g <= 4
  {
    if bits == 0 then 0 else Gain(if bits + ks / 4 > 15 then 15 else bits + ks / 4, ks % 4, ticks, tick)
  }

  lemma RateGain(o: Registers, st: Stage, v: View, nts: bool, t: Timer, tick: nat)
    requires ViewOk(v) && t.egshift == ShiftOf(tick) && t.eglow == tick % 4
    ensures var bits := match st case Attack => o.r60 / 16 case Decay => o.r60 % 16
                        case Sustain => (if (o.r20 / 32) % 2 == 1 then 0 else o.r80 % 16) case Release => o.r80 % 16;
      var ks := NoteScale(o.r20, v, nts);
      var rate := RateOf(o, v, nts, st);
      && (rate.rhi == 15 <==> bits + ks / 4 >= 15) && Moves(bits, ks, t.sub, tick) == GainOf(StepCode(rate, t))
  {
    var bits: int := match st case Attack => o.r60 / 16 case Decay => o.r60 % 16
      case Sustain => (if (o.r20 / 32) % 2 == 1 then 0 else o.r80 % 16) case Release => o.r80 % 16;
    var ks := NoteScale(o.r20, v, nts);
    assert KeyScale(o.r20, v, nts) == ks;
    assert RateReg(o, st) == bits;
    hide RateReg, KeyScale, NoteScale;
    if bits > 0 {
      StepIsGain(bits, ks, t, tick);
    } else {
      NoRate(ks, t);
    }
  }

  lemma NoRate(ks: int, t: Timer)
    requires 0 <= ks < 16
    ensures StepCode(ScaledRate(0, ks), t) == 0 && ScaledRate(0, ks).rhi < 4
  {
  }

  /** What one sample makes of an envelope. Keying a released operator starts its attack, at once at full
      volume when the attack's four bits and the note's scale come to 15, and from where the level is
      otherwise; the attack takes the level down by its eighth, its quarter or its half and one; the decay
      takes it up to the sustain level, the sustain holds it when EGT is up and else goes on at the release's
      rate; and from 504 on a level that is not attacking is gone. */
  predicate EnvelopeMoves(s: Slot, r: Slot, v: View, key: bool, nts: bool, ticks: bool, tick: nat)
    requires ViewOk(v)
  {
    var o := s.regs;
    var ks := NoteScale(o.r20, v, nts);
    var at := if o.r80 / 16 == 15 then 31 else o.r80 / 16;
    match s.stage
    case Release =>
      && r.stage == (if key then Attack else Release)
      && r.level == (if key then (if o.r60 / 16 + ks / 4 >= 15 then 0 else s.level)
                     else if s.level >= 504 then 511
                     else s.level + Moves(o.r80 % 16, ks, ticks, tick))
    case Attack =>
      var g := Moves(o.r60 / 16, ks, ticks, tick);
      && r.stage == (if !key then Release else if s.level == 0 then Decay else Attack)
      && r.level == (if !key || s.level == 0 || o.r60 / 16 + ks / 4 >= 15 || g == 0 then s.level
                     else s.level - s.level / (8 / g) - 1)
    case Decay =>
      && r.stage == (if !key then Release else if s.level / 16 == at then Sustain else Decay)
      && r.level == (if s.level >= 504 then 511 else if s.level / 16 == at then s.level
                     else s.level + Moves(o.r60 % 16, ks, ticks, tick))
    case Sustain =>
      && r.stage == (if !key then Release else Sustain)
      && r.level == (if s.level >= 504 then 511 else if (o.r20 / 32) % 2 == 1 then s.level
                     else s.level + Moves(o.r80 % 16, ks, ticks, tick))
  }

  lemma EnvelopeLaw(m: Machine, rom: seq<int>, i: int, tick: nat)
    requires AtRest(m) && RomOk(rom) && 0 <= i < 18 && TicksAt(m.chip.cnt, tick)
    ensures EnvelopeMoves(Was(m, i), Now(m, rom, i), Seen(m, i), Keyed(m, i), Commit(m).chip.nts, m.chip.cnt.sub, tick)
  {
    NowSteps(m, rom, i);
    assert WellFormed(Commit(m).chip) by { CommitClocks(m); }
    var x := AroundAt(Commit(m).chip, i);
    hide AtRest, WellFormed, Was, Now, Seen, Keyed, Commit, ShiftOf, EnvelopeMoves, StepSlot, Key, SlotView;
    SlotLaw(Was(m, i), x, tick);
  }

  /** A quarter, half or all of half a level and one. */
  lemma Falls(level: int)
    requires 0 <= level <= 511
    ensures (-level - 1) / 2 / 4 == -(level / 8) - 1 && (-level - 1) / 2 / 2 == -(level / 4) - 1
    ensures (-level - 1) / 2 == -(level / 2) - 1
  {
  }

  function GainOf(code: int): (g: int)
    requires 0 <= code <= 3
    ensures g in {0, 1, 2, 4}
  {
    if code == 0 then 0 else if code == 1 then 1 else if code == 2 then 2 else 4
  }

  lemma AttackRule(level: int, key: bool, rate: Rate, band: int, t: Timer)
    requires 0 <= level <= 511
    ensures var e, g := EnvelopeRule(level, Attack, key, rate, band, t), GainOf(StepCode(rate, t));
      && e.stage == (if !key then Release else if level == 0 then Decay else Attack)
      && e.level == (if !key || level == 0 || rate.rhi == 15 || g == 0 then level else level - level / (8 / g) - 1)
  {
    hide StepCode;
    Falls(level);
    Keeps(level);
    if level > 0 {
      Keeps(level - level / 8 - 1);
      Keeps(level - level / 4 - 1);
      Keeps(level - level / 2 - 1);
    }
  }

  lemma Keeps(level: int)
    requires 0 <= level <= 511
    ensures level % 512 == level
    ensures level > 0 ==> 0 <= level - level / 8 - 1 && 0 <= level - level / 4 - 1 && 0 <= level - level / 2 - 1
  {
  }

  /** The rule of section 3.4 with its step put as a gain. */
  lemma FallRule(level: int, stage: Stage, key: bool, rate: Rate, band: int, t: Timer)
    requires 0 <= level <= 511 && stage != Attack
    ensures var e, g := EnvelopeRule(level, stage, key, rate, band, t), GainOf(StepCode(rate, t));
      if stage == Release && key then e.stage == Attack && e.level == (if rate.rhi == 15 then 0 else level)
      else
        && e.stage == (if !key then Release else if stage == Decay && level / 16 == band then Sustain else stage)
        && e.level == (if level >= 504 then 511 else if stage == Decay && level / 16 == band then level else level + g)
  {
    hide StepCode;
    assert 4 / 4 == 1 && 4 / 2 == 2 && 0 / 4 == 0 && 0 / 2 == 0;
  }

  lemma SlotLaw(s: Slot, x: Around, tick: nat)
    requires SlotOk(s) && ViewOk(x.view) && x.timer.egshift == ShiftOf(tick) && x.timer.eglow == tick % 4
    ensures EnvelopeMoves(s, StepSlot(s, x), x.view, x.key, x.nts, x.timer.sub, tick)
  {
    var sel := if s.stage.Release? && x.key then Attack else s.stage;
    var rate := RateOf(s.regs, x.view, x.nts, sel);
    RateGain(s.regs, sel, x.view, x.nts, x.timer, tick);
    SlotEnvelopeIs(s, x);
    hide StepCode, RateOf, ShiftOf, Moves, NoteScale, EnvelopeRule, StepSlot, ViewOk;
    if s.stage == Attack {
      AttackRule(s.level, x.key, rate, SustainBand(s.regs.r80), x.timer);
    } else {
      FallRule(s.level, s.stage, x.key, rate, SustainBand(s.regs.r80), x.timer);
    }
  }

  lemma SlotEnvelopeIs(s: Slot, x: Around)
    requires ViewOk(x.view)
    ensures var e := EnvelopeRule(s.level, s.stage, x.key,
        RateOf(s.regs, x.view, x.nts, if s.stage.Release? && x.key then Attack else s.stage),
        SustainBand(s.regs.r80), x.timer);
      StepSlot(s, x).level == e.level && StepSlot(s, x).stage == e.stage
    ensures SustainBand(s.regs.r80) == if s.regs.r80 / 16 == 15 then 31 else s.regs.r80 / 16
  {
    hide EnvelopeRule, RateOf, SlotIncrement;
  }

  /** Over eight multiples of its period a slow rate moves four times and once more for each of its low bits'
      worth, and over eight samples a fast one four times and as many more, doubled for each step of its
      high part: the average of section 3.3. */
  lemma GainOverEight(hi: int, lo: int, n: nat)
    requires 0 < hi < 15 && 0 <= lo < 4
    ensures hi < 12 ==>
      var p := Power2(11 - hi);
      Gain(hi, lo, true, 8 * n * p) + Gain(hi, lo, true, (8 * n + 1) * p) + Gain(hi, lo, true, (8 * n + 2) * p)
        + Gain(hi, lo, true, (8 * n + 3) * p) + Gain(hi, lo, true, (8 * n + 4) * p)
          + Gain(hi, lo, true, (8 * n + 5) * p)
        + Gain(hi, lo, true, (8 * n + 6) * p) + Gain(hi, lo, true, (8 * n + 7) * p) == 4 + lo
    ensures hi >= 12 ==>
      Gain(hi, lo, false, 4 * n) + Gain(hi, lo, true, 4 * n) + Gain(hi, lo, false, 4 * n + 1)
        + Gain(hi, lo, true, 4 * n + 1)
        + Gain(hi, lo, false, 4 * n + 2) + Gain(hi, lo, true, 4 * n + 2) + Gain(hi, lo, false, 4 * n + 3)
        + Gain(hi, lo, true, 4 * n + 3) == (4 + lo) * Power2(hi - 12)
  {
    if hi < 12 {
      SlowGains(hi, lo, n);
    } else {
      PowTable();
      CountsOfFour(n);
      hide Power2;
    }
  }

  lemma CountsOfFour(n: nat)
    ensures 4 * n % 4 == 0 && (4 * n + 1) % 4 == 1 && (4 * n + 2) % 4 == 2 && (4 * n + 3) % 4 == 3
  {
  }

  lemma SlowGains(hi: int, lo: int, n: nat)
    requires 0 < hi < 12 && 0 <= lo < 4
    ensures var p := Power2(11 - hi);
      Gain(hi, lo, true, 8 * n * p) + Gain(hi, lo, true, (8 * n + 1) * p) + Gain(hi, lo, true, (8 * n + 2) * p)
        + Gain(hi, lo, true, (8 * n + 3) * p) + Gain(hi, lo, true, (8 * n + 4) * p)
          + Gain(hi, lo, true, (8 * n + 5) * p)
        + Gain(hi, lo, true, (8 * n + 6) * p) + Gain(hi, lo, true, (8 * n + 7) * p) == 4 + lo
  {
    hide *;
    SlowGain(hi, lo, n, 0);
    SlowGain(hi, lo, n, 1);
    SlowGain(hi, lo, n, 2);
    SlowGain(hi, lo, n, 3);
    SlowGain(hi, lo, n, 4);
    SlowGain(hi, lo, n, 5);
    SlowGain(hi, lo, n, 6);
    SlowGain(hi, lo, n, 7);
    assert 8 * n + 0 == 8 * n;
  }

  lemma SlowGain(hi: int, lo: int, n: nat, k: nat)
    requires 0 < hi < 12 && 0 <= lo < 4 && k < 8
    ensures Gain(hi, lo, true, (8 * n + k) * Power2(11 - hi)) ==
            if k in {1, 3, 5, 7} || (k in {2, 6} && lo >= 2) || (k == 4 && lo % 2 == 1) then 1 else 0
  {
    QuotientIs((8 * n + k) * Power2(11 - hi), Power2(11 - hi), 8 * n + k, 0);
    ModOf(8, n, k);
    ModOf(4, 2 * n + k / 4, k % 4);
    ModOf(2, 4 * n + k / 2, k % 2);
    hide Power2;
  }

  // ---------------- the pitch ----------------

  /** A multiple of the note's step: half for 0, the number itself up to 10, and 10, 12, 12, 15 and 15. */
  function Multiple(mult: int, step: int): int {
    if mult == 0 then step / 2
    else if mult <= 10 then mult * step
    else if mult == 11 then 10 * step
    else if mult <= 13 then 12 * step
    else 15 * step
  }

  /** How far vibrato bends an F-number at one of its eight positions: not at all, half, all, half, and back;
      all is its top three bits, or with the shallow depth its top two. */
  function Bend(fnum: int, position: int, deep: bool): int {
    var all := if deep then fnum / 128 else fnum / 256;
    var half := if deep then fnum / 256 else fnum / 512;
    if position == 0 || position == 4 then 0
    else if position == 1 || position == 3 then half
    else if position == 2 then all
    else if position == 6 then -all
    else -half
  }

  lemma MultipleIs(step: int, r20: u8)
    ensures (step * MT[r20 % 16]) / 2 == Multiple(r20 % 16, step)
  {
    var k: int := r20 % 16;
    if k == 0 {
    } else if k == 1 {
    } else if k == 2 {
    } else if k == 3 {
    } else if k == 4 {
    } else if k == 5 {
    } else if k == 6 {
    } else if k == 7 {
    } else if k == 8 {
    } else if k == 9 {
    } else if k == 10 {
    } else if k == 11 {
    } else if k == 12 {
    } else if k == 13 {
    } else if k == 14 {
    } else {
      assert k == 15;
    }
  }

  lemma BendIs(fnum: int, vib: int, dvb: bool)
    requires 0 <= fnum < 1024 && 0 <= vib < 8
    ensures VibratoFnum(fnum, vib, dvb) == fnum + Bend(fnum, vib, dvb)
  {
    TopBits(fnum);
    assert vib % 4 == (if vib < 4 then vib else vib - 4) && vib % 2 == (if vib in {1, 3, 5, 7} then 1 else 0);
    var b := VibratoDepth(fnum, vib, dvb);
    assert 0 <= b <= fnum / 128;
    assert (fnum - b) % 1024 == fnum - b;
  }

  lemma TopBits(fnum: int)
    requires 0 <= fnum < 1024
    ensures (fnum / 128) % 8 == fnum / 128 && (fnum / 256) % 4 == fnum / 256 && (fnum / 512) % 2 == fnum / 512
    ensures fnum / 256 <= fnum / 128 <= fnum && fnum / 512 <= fnum / 256
  {
  }

  lemma OctaveIs(blk: int)
    requires 0 <= blk < 8
    ensures POW2[blk] == Power2(blk)
  {
    PowTable();
  }

  /** One sample turns an operator's phase by its multiple of the F-number raised by its octave, halved; the
      phase starts over when a released operator is keyed. */
  predicate PhaseMoves(s: Slot, r: Slot, v: View, key: bool, position: int, deep: bool)
    requires ViewOk(v)
  {
    var f := if (s.regs.r20 / 64) % 2 == 1 then v.fnum + Bend(v.fnum, position, deep) else v.fnum;
    var from := if s.stage == Release && key then 0 else s.phase;
    r.phase == (from + Multiple(s.regs.r20 % 16, f * Power2(v.blk) / 2)) % 0x80000
  }

  lemma PitchLaw(m: Machine, rom: seq<int>, i: int)
    requires AtRest(m) && RomOk(rom) && 0 <= i < 18
    ensures var c := Commit(m).chip;
      PhaseMoves(Was(m, i), Now(m, rom, i), Seen(m, i), Keyed(m, i),
                 if i != 0 && (c.test / 128) % 2 == 1 then 0 else m.chip.cnt.vib, (c.bd / 64) % 2 == 1)
  {
    NowSteps(m, rom, i);
    CommitClocks(m);
    var c := Commit(m).chip;
    var x := AroundAt(c, i);
    assert x.vib == (if i != 0 && (c.test / 128) % 2 == 1 then 0 else m.chip.cnt.vib)
      && x.dvb == ((c.bd / 64) % 2 == 1);
    hide AtRest, Commit, Was, Now, Seen, Keyed, WellFormed, StepSlot, PhaseMoves, Key, SlotView;
    TurnLaw(Was(m, i), x);
  }

  lemma TurnLaw(s: Slot, x: Around)
    requires AroundOk(x)
    ensures PhaseMoves(s, StepSlot(s, x), x.view, x.key, x.vib, x.dvb)
  {
    hide VibratoFnum, Bend, Power2, SlotEnvelope, Multiple;
    BendIs(x.view.fnum, x.vib, x.dvb);
    OctaveIs(x.view.blk);
    EdgeIs(s, x);
    var f := if (s.regs.r20 / 64) % 2 == 1 then x.view.fnum + Bend(x.view.fnum, x.vib, x.dvb) else x.view.fnum;
    MultipleIs(f * Power2(x.view.blk) / 2, s.regs.r20);
  }

  lemma EdgeIs(s: Slot, x: Around)
    requires ViewOk(x.view)
    ensures SlotEnvelope(s, x).edge == (s.stage.Release? && x.key)
  {
    hide StepCode, RateOf;
  }
}
