/** The YM3812 of src/core/aud/opl.md, one step per output sample.

    The chip here is its registers and counters and nothing else: no increment, rate index,
    attenuation term, key bit, envelope record or mute flag is stored. Section numbers in this
    module are those of src/core/aud/opl.md. Test bits 0 and 2 are absent, as in the engine. */
module OplSpec {
  import opened Common

  datatype Stage = Attack | Decay | Sustain | Release

  /** Bit w, a power of two, of x. */
  predicate Bit(x: int, w: int)
    requires w > 0
  {
    (x / w) % 2 == 1
  }

  /** What one side (carrier or modulator) of a channel sees of A0, B0 and C0 (section 7.6). */
  datatype View = View(fnum: int, blk: int, kon: bool, con: bool, fb: int)

  /** An operator's registers, each named by its lowest address. */
  datatype Registers = Registers(r20: u8, r40: u8, r60: u8, r80: u8, ws: int)

  /** One operator: its 19-bit phase, its 9-bit attenuation, its stage and its registers. */
  datatype Slot = Slot(phase: int, level: int, stage: Stage, regs: Registers)

  /** The global counters of section 1.3. */
  datatype Counters = Counters(vib: int, lfo: int, tv: int, tdir: bool, tof: bool, tstep: bool,
                               T: int, carry: bool, sub: bool, egshift: int, eglow: int, N: bv32)

  /** The last two outputs of a modulator (section 4.3). */
  datatype History = History(h1: int, h2: int)

  datatype Write = Write(reg: u8, val: u8)

  datatype Chip = Chip(slots: seq<Slot>, cv: seq<View>, mv: seq<View>, hist: seq<History>,
                       test: u8, nts: bool, bd: u8, lag: seq<bool>, cnt: Counters,
                       c3: bool, c5: bool, held15: int, held1617: int)

  /** The chip behind its queue of writes (section 7.8). */
  datatype Machine = Machine(chip: Chip, queue: seq<Write>, credit: int, drops: int)

  /** Which of channels 0 to 5 have a half still to follow. */
  const NO_LAG: seq<bool> := [false, false, false, false, false, false]

  const QUEUE_SIZE := 256
  const MAX_DROPS := 0x7FFFFFFF

  const MT: seq<int> := [1, 2, 4, 6, 8, 10, 12, 14, 16, 18, 20, 20, 24, 24, 30, 30]
  const KSLROM: seq<int> := [0, 32, 40, 45, 48, 51, 53, 55, 56, 58, 59, 60, 61, 62, 63, 64]
  const POW2: seq<int> := [1, 2, 4, 8, 16, 32, 64, 128]

  /** The log-sine table, then the exponential one with its implied one and doubling. */
  predicate RomOk(rom: seq<int>) {
    && |rom| == 512
    && (forall i :: 0 <= i < 256 ==> 0 <= rom[i] <= 2137)
    && (forall i :: 256 <= i < 512 ==> 2048 <= rom[i] <= 4084)
  }

  // ---------------- section 0: slots and channels ----------------

  /** The modulator slot of each channel; its carrier is three slots on. */
  const MODULATOR: seq<int> := [0, 1, 2, 6, 7, 8, 12, 13, 14]

  const CHANNEL: seq<int> := [0, 1, 2, 0, 1, 2, 3, 4, 5, 3, 4, 5, 6, 7, 8, 6, 7, 8]

  predicate IsModulator(i: int) { i < 3 || 6 <= i < 9 || 12 <= i < 15 }

  function ChannelOf(i: int): (c: int)
    requires 0 <= i < 18
    ensures 0 <= c < 9
  {
    CHANNEL[i]
  }

  function ModSlot(c: int): (i: int)
    requires 0 <= c < 9
    ensures 0 <= i < 15 && IsModulator(i) && !IsModulator(i + 3)
    ensures ChannelOf(i) == c && ChannelOf(i + 3) == c
  {
    MODULATOR[c]
  }

  predicate WellFormed(c: Chip) {
    && |c.slots| == 18 && |c.cv| == 9 && |c.mv| == 9 && |c.hist| == 9
    && (forall i :: 0 <= i < 9 ==> ViewOk(c.cv[i]) && ViewOk(c.mv[i]))
    && (forall i :: 0 <= i < 18 ==> SlotOk(c.slots[i]))
    && (forall i :: 0 <= i < 9 ==> Out13(c.hist[i].h1) && Out13(c.hist[i].h2))
    && CountersOk(c.cnt) && |c.lag| == 6
  }

  /** An operator's output, 13-bit two's complement. */
  predicate Out13(x: int) { -4085 <= x <= 4084 }

  predicate ViewOk(v: View) { 0 <= v.fnum < 1024 && 0 <= v.blk < 8 && 0 <= v.fb < 8 }

  predicate SlotOk(s: Slot) { 0 <= s.phase < 0x80000 && 0 <= s.level <= 0x1FF && 0 <= s.regs.ws < 4 }

  predicate CountersOk(n: Counters) {
    && 0 <= n.vib < 8 && 0 <= n.lfo < 1024 && 0 <= n.tv < 512
    && 0 <= n.T < 0x40000 && 0 <= n.egshift <= 13 && 0 <= n.eglow < 4
    && 0 < n.N < 0x800000
  }

  function SlotView(c: Chip, i: int): View
    requires WellFormed(c) && 0 <= i < 18
  {
    if IsModulator(i) then c.mv[ChannelOf(i)] else c.cv[ChannelOf(i)]
  }

  predicate Rhythm(bd: u8) { Bit(bd, 0x20) }

  predicate Dam(bd: u8) { Bit(bd, 0x80) }

  predicate Dvb(bd: u8) { Bit(bd, 0x40) }

  /** Section 5.1: the drum key of slots 12 to 17. */
  predicate DrumKey(bd: u8, i: int) {
    Rhythm(bd) && ((i == 12 && Bit(bd, 16)) || (i == 13 && Bit(bd, 1)) || (i == 14 && Bit(bd, 4)) ||
                   (i == 15 && Bit(bd, 16)) || (i == 16 && Bit(bd, 8)) || (i == 17 && Bit(bd, 2)))
  }

  /** Section 3.1. */
  predicate Key(c: Chip, i: int)
    requires WellFormed(c) && 0 <= i < 18
  {
    SlotView(c, i).kon || DrumKey(c.bd, i)
  }

  // ---------------- section 2: phase generator ----------------

  /** How far a vibrato position moves the F-number: nothing, half or all of its top bits. */
  function VibratoDepth(fnum: int, vib: int, dvb: bool): int {
    if vib % 4 == 2 then (if dvb then (fnum / 128) % 8 else (fnum / 256) % 4)
    else if vib % 2 == 1 then (if dvb then (fnum / 256) % 4 else (fnum / 512) % 2)
    else 0
  }

  /** The F-number a slot uses at vibrato position vib. */
  function VibratoFnum(fnum: int, vib: int, dvb: bool): int {
    var r := VibratoDepth(fnum, vib, dvb);
    if vib >= 4 then (fnum - r) % 1024 else fnum + r
  }

  /** The increment of an F-number f, before the accumulator wraps. */
  function Increment(f: int, blk: int, r20: u8): int
    requires 0 <= blk < 8
  {
    (((f * POW2[blk]) / 2) * MT[r20 % 16]) / 2
  }

  function SlotIncrement(r20: u8, v: View, vib: int, dvb: bool): int
    requires ViewOk(v)
  {
    Increment(if Bit(r20, 0x40) then VibratoFnum(v.fnum, vib, dvb) else v.fnum, v.blk, r20)
  }

  /** The 10-bit phase a slot's operator uses this sample. */
  function Phase10(s: Slot): int { (s.phase / 512) % 1024 }

  // ---------------- section 3: envelope generator ----------------

  /** Section 3.2. r is the register's rate; rhi and rlo the scaled rate. */
  datatype Rate = Rate(r: int, rhi: int, rlo: int)

  function RateReg(o: Registers, st: Stage): (r: int)
    ensures 0 <= r < 16
  {
    match st
    case Attack => o.r60 / 16
    case Decay => o.r60 % 16
    case Sustain => if Bit(o.r20, 0x20) then 0 else o.r80 % 16
    case Release => o.r80 % 16
  }

  /** NTS chooses which top bit of the F-number joins the block. */
  function KeyScale(r20: u8, v: View, nts: bool): (ks: int)
    requires ViewOk(v)
    ensures 0 <= ks < 16
  {
    if Bit(r20, 0x10) then 2 * v.blk + (if nts then (v.fnum / 256) % 2 else (v.fnum / 512) % 2)
    else v.blk / 2
  }

  function ScaledRate(r: int, ks: int): Rate {
    Rate(r, if r + ks / 4 > 15 then 15 else r + ks / 4, ks % 4)
  }

  function RateOf(o: Registers, v: View, nts: bool, st: Stage): Rate
    requires ViewOk(v)
  {
    ScaledRate(RateReg(o, st), KeyScale(o.r20, v, nts))
  }

  /** What the envelopes read of the counters. */
  datatype Timer = Timer(sub: bool, egshift: int, eglow: int)

  predicate TimerOk(t: Timer) { 0 <= t.egshift <= 13 && 0 <= t.eglow < 4 }

  /** Section 3.3: the extra step of rates 48 and up. */
  predicate ExtraStep(rlo: int, eglow: int) {
    (rlo == 1 && eglow == 0) || (rlo == 2 && (eglow == 0 || eglow == 2)) || (rlo == 3 && eglow != 3)
  }

  /** Section 3.3: 0 no step, 1, 2 and 3 steps of one, two and four. */
  function StepCode(rate: Rate, t: Timer): (step: int)
    ensures 0 <= step <= 3
  {
    if rate.rhi < 12 then
      var x := rate.rhi + t.egshift;
      if rate.r != 0 && t.sub &&
         (x == 12 || (x == 13 && rate.rlo >= 2) || (x == 14 && rate.rlo % 2 == 1)) then 1 else 0
    else
      var h := ExtraStep(rate.rlo, t.eglow);
      if rate.rhi == 12 then (if h || t.sub then 1 else 0)
      else if rate.rhi == 13 then (if h then 2 else 1)
      else if rate.rhi == 14 then (if h then 3 else 2)
      else 3
  }

  function SustainBand(r80: u8): int {
    if r80 / 16 == 15 then 31 else r80 / 16
  }

  datatype Envelope = Envelope(level: int, stage: Stage, mute: bool, edge: bool)

  /** Section 3.4. rates gives the rate of each stage, band the sustain level's top bits. */
  function EnvelopeRule(level: int, stage: Stage, key: bool, rate: Rate, band: int, t: Timer): Envelope {
    var edge := stage.Release? && key;
    var step := StepCode(rate, t);
    var slreach := level / 16 == band;
    var zero := level == 0;
    var silent := level >= 0x1F8;
    var mute := !stage.Attack? && silent && !edge;
    var next := if edge then Attack
                else if !key then Release
                else if stage.Attack? then (if zero then Decay else Attack)
                else if stage.Decay? then (if slreach then Sustain else Decay)
                else stage;
    var linear := !edge && !silent && (stage.Sustain? || stage.Release? || (stage.Decay? && !slreach));
    var expo := stage.Attack? && key && rate.rhi != 15 && !zero;
    var base := if mute then 0x1FF else if edge && rate.rhi == 15 then 0 else level;
    var add := if expo then (-level - 1) / 2 else if linear then 4 else 0;
    var inc := if step == 1 then add / 4 else if step == 2 then add / 2 else if step == 3 then add else 0;
    Envelope((base + inc) % 512, next, mute, edge)
  }

  /** Section 3.2: the rate a slot steps with, AR on the key-on edge. */
  function RateNow(s: Slot, v: View, nts: bool, key: bool): Rate
    requires ViewOk(v)
  {
    RateOf(s.regs, v, nts, if s.stage.Release? && key then Attack else s.stage)
  }

  /** What a slot reads of the rest of the chip in one sample. */
  datatype Around = Around(view: View, key: bool, nts: bool, timer: Timer, vib: int, dvb: bool, amv: int)

  predicate AroundOk(x: Around) {
    ViewOk(x.view) && TimerOk(x.timer) && 0 <= x.vib < 8 && 0 <= x.amv < 32
  }

  function SlotEnvelope(s: Slot, x: Around): Envelope
    requires ViewOk(x.view)
  {
    EnvelopeRule(s.level, s.stage, x.key, RateNow(s, x.view, x.nts, x.key), SustainBand(s.regs.r80), x.timer)
  }

  /** Every slot's envelope and phase run on every sample, keyed or not. */
  function StepSlot(s: Slot, x: Around): Slot
    requires ViewOk(x.view)
  {
    var e := SlotEnvelope(s, x);
    var inc := SlotIncrement(s.regs.r20, x.view, x.vib, x.dvb);
    Slot(((if e.edge then 0 else s.phase) + inc) % 0x80000, e.level, e.stage, s.regs)
  }

  /** Section 3.5: the KSL attenuation before its shift. */
  function KslBase(v: View): int
    requires ViewOk(v)
  {
    var k := KSLROM[v.fnum / 64] - 8 * (8 - v.blk);
    if k < 0 then 0 else k
  }

  function KslTl(r40: u8, v: View): (k: int)
    requires ViewOk(v)
    ensures 0 <= k < 0x10000
  {
    var k6 := KslBase(v);
    var ksl := r40 / 64;
    (if ksl == 0 then 0 else if ksl == 1 then 2 * k6 else if ksl == 2 then k6 else 4 * k6)
    + 4 * (r40 % 64)
  }

  /** Section 3.5: the attenuation this sample is heard at, the level not yet stepped. */
  function Attenuation(s: Slot, x: Around): (a: int)
    requires AroundOk(x) && SlotOk(s)
    ensures 0 <= a <= 0x1FF
  {
    var a := s.level + KslTl(s.regs.r40, x.view) + (if Bit(s.regs.r20, 0x80) then x.amv else 0);
    if a > 0x1FF then 0x1FF else a
  }

  // ---------------- section 4: operator ----------------

  function Shr(v: int, n: int): int
    requires 0 <= n < 16
  {
    v / [1, 2, 4, 8, 16, 32, 64, 128, 256, 512, 1024, 2048, 4096, 8192, 16384, 32768][n]
  }

  /** Section 4.2. phase is taken modulo 1024. */
  function Operator(rom: seq<int>, phase: int, ws: int, eg: int): (v: int)
    requires RomOk(rom) && 0 <= eg <= 0x1FF && 0 <= ws < 4
    ensures -4085 <= v <= 4084
  {
    var p := phase % 1024;
    var sign := p / 512 == 1;
    var quarter := (p / 256) % 2 == 1;
    var idx := if quarter then 255 - p % 256 else p % 256;
    var att := if rom[idx] + 8 * eg > 4095 then 4095 else rom[idx] + 8 * eg;
    var v := Shr(rom[256 + att % 256], att / 256);
    assert 0 <= v <= 4084;
    match ws
    case 0 => if sign then -v - 1 else v
    case 1 => if sign then 0 else v
    case 2 => v
    case _ => if quarter then 0 else v
  }

  /** Section 4.3: the feedback term, from the modulator's last two outputs. */
  function Feedback(h: History, fb: int): int
    requires 0 <= fb < 8
  {
    if fb == 0 then 0 else (h.h1 + h.h2) / [512, 256, 128, 64, 32, 16, 8, 4][fb]
  }

  // ---------------- one sample of the chip ----------------

  function TimerOf(n: Counters): Timer { Timer(n.sub, n.egshift, n.eglow) }

  /** The tremolo value every slot of this sample uses (section 1.3, 3.5). */
  function Tremolo(c: Chip): int {
    var tout := c.cnt.tv % 128;
    if Dam(c.bd) then tout / 4 else tout / 16
  }

  /** Section 1.3: with test bit 7 up only slot 0 sees the vibrato position. */
  function VibAt(c: Chip, i: int): int {
    if i != 0 && Bit(c.test, 0x80) then 0 else c.cnt.vib
  }

  function AroundAt(c: Chip, i: int): (x: Around)
    requires WellFormed(c) && 0 <= i < 18
    ensures AroundOk(x)
  {
    Around(SlotView(c, i), Key(c, i), c.nts, TimerOf(c.cnt), VibAt(c, i), Dvb(c.bd), Tremolo(c))
  }

  function EnvelopeAt(c: Chip, i: int): Envelope
    requires WellFormed(c) && 0 <= i < 18
  {
    SlotEnvelope(c.slots[i], AroundAt(c, i))
  }

  function AttenuationAt(c: Chip, i: int): (a: int)
    requires WellFormed(c) && 0 <= i < 18
    ensures 0 <= a <= 0x1FF
  {
    Attenuation(c.slots[i], AroundAt(c, i))
  }

  function SlotNext(c: Chip, i: int): Slot
    requires WellFormed(c) && 0 <= i < 18
  {
    StepSlot(c.slots[i], AroundAt(c, i))
  }

  /** The output of slot i at phase p. */
  function OutputAt(c: Chip, rom: seq<int>, i: int, p: int): (v: int)
    requires WellFormed(c) && RomOk(rom) && 0 <= i < 18
    ensures -4085 <= v <= 4084
  {
    Operator(rom, p, c.slots[i].regs.ws, AttenuationAt(c, i))
  }

  /** A modulator adds its own feedback to its phase (section 4.3). */
  function ModulatorOut(rom: seq<int>, s: Slot, x: Around, h: History): (v: int)
    requires RomOk(rom) && SlotOk(s) && AroundOk(x)
    ensures Out13(v)
  {
    Operator(rom, Phase10(s) + Feedback(h, x.view.fb), s.regs.ws, Attenuation(s, x))
  }

  /** The modulator's output reaches the carrier in the same sample unless CON adds it instead. */
  function CarrierOut(rom: seq<int>, s: Slot, x: Around, con: bool, mo: int): (v: int)
    requires RomOk(rom) && SlotOk(s) && AroundOk(x)
    ensures Out13(v)
  {
    Operator(rom, Phase10(s) + (if con then 0 else mo), s.regs.ws, Attenuation(s, x))
  }

  function ModOutput(c: Chip, rom: seq<int>, ch: int): (v: int)
    requires WellFormed(c) && RomOk(rom) && 0 <= ch < 9
    ensures Out13(v)
  {
    var i := ModSlot(ch);
    ModulatorOut(rom, c.slots[i], AroundAt(c, i), c.hist[ch])
  }

  function CarOutput(c: Chip, rom: seq<int>, ch: int): (v: int)
    requires WellFormed(c) && RomOk(rom) && 0 <= ch < 9
    ensures Out13(v)
  {
    var i := ModSlot(ch) + 3;
    CarrierOut(rom, c.slots[i], AroundAt(c, i), c.mv[ch].con, ModOutput(c, rom, ch))
  }

  /** v, or nothing when slot i is muted this sample (section 6.1). */
  function Mixed(c: Chip, i: int, v: int): int
    requires WellFormed(c) && 0 <= i < 18
  {
    if EnvelopeAt(c, i).mute then 0 else v
  }

  function ModMix(c: Chip, rom: seq<int>, ch: int): int
    requires WellFormed(c) && RomOk(rom) && 0 <= ch < 9
  {
    if c.mv[ch].con then Mixed(c, ModSlot(ch), ModOutput(c, rom, ch)) else 0
  }

  function CarMix(c: Chip, rom: seq<int>, ch: int): int
    requires WellFormed(c) && RomOk(rom) && 0 <= ch < 9
  {
    Mixed(c, ModSlot(ch) + 3, CarOutput(c, rom, ch))
  }

  /** What channels 0 to n - 1 add to this output. */
  function MelodicMix(c: Chip, rom: seq<int>, n: int): int
    requires WellFormed(c) && RomOk(rom) && 0 <= n <= 6
  {
    if n == 0 then 0 else MelodicMix(c, rom, n - 1) + ModMix(c, rom, n - 1) + CarMix(c, rom, n - 1)
  }

  // ---------------- section 5: rhythm ----------------

  predicate RhythmBit(h: int, c3: bool, c5: bool) {
    (Bit(h, 4) != Bit(h, 128)) || (Bit(h, 8) != c5) || (c3 != c5)
  }

  /** The phase the hi-hat's operator gets, from slot 13's and the last cymbal bits. */
  function HihatPhase(h: int, c3: bool, c5: bool, noise: bool): int {
    var rm := RhythmBit(h, c3, c5);
    (if rm then 512 else 0) + (if rm != noise then 0xD0 else 0x34)
  }

  function SnarePhase(h: int, noise: bool): int {
    (if Bit(h, 256) then 512 else 0) + (if Bit(h, 256) != noise then 256 else 0)
  }

  /** The cymbal uses its own phase's bits of this sample. */
  function CymbalPhase(h: int, p: int): int {
    (if RhythmBit(h, Bit(p, 8), Bit(p, 32)) then 512 else 0) + 256
  }

  function HihatMix(c: Chip, rom: seq<int>): int
    requires WellFormed(c) && RomOk(rom)
  {
    Mixed(c, 13, OutputAt(c, rom, 13, HihatPhase(Phase10(c.slots[13]), c.c3, c.c5, (c.cnt.N >> 9) & 1 == 1)))
  }

  function TomMix(c: Chip, rom: seq<int>): int
    requires WellFormed(c) && RomOk(rom)
  {
    Mixed(c, 14, OutputAt(c, rom, 14, Phase10(c.slots[14])))
  }

  function SnareMix(c: Chip, rom: seq<int>): int
    requires WellFormed(c) && RomOk(rom)
  {
    Mixed(c, 16, OutputAt(c, rom, 16, SnarePhase(Phase10(c.slots[13]), (c.cnt.N >> 6) & 1 == 1)))
  }

  function CymbalMix(c: Chip, rom: seq<int>): int
    requires WellFormed(c) && RomOk(rom)
  {
    Mixed(c, 17, OutputAt(c, rom, 17, CymbalPhase(Phase10(c.slots[13]), Phase10(c.slots[17]))))
  }

  // ---------------- section 6: accumulator and DAC ----------------

  /** What slots 12 to 14 add to this output. */
  function HighMix(c: Chip, rom: seq<int>): int
    requires WellFormed(c) && RomOk(rom)
  {
    if Rhythm(c.bd) then 2 * HihatMix(c, rom) + 2 * TomMix(c, rom)
    else ModMix(c, rom, 6) + ModMix(c, rom, 7) + ModMix(c, rom, 8)
  }

  /** Section 6.1: slots 15 to 17 of the sample before, then slots 0 to 14 of this one. */
  function Accumulator(c: Chip, rom: seq<int>): int
    requires WellFormed(c) && RomOk(rom)
  {
    c.held15 + (if Rhythm(c.bd) then 2 * c.held1617 else c.held1617) + MelodicMix(c, rom, 6) + HighMix(c, rom)
  }

  function Clamp16(x: int): int {
    if x > 32767 then 32767 else if x < -32768 then -32768 else x
  }

  function DacExponent(s: int): int {
    var t := (if s / 512 < 0 then -(s / 512) - 1 else s / 512) % 64;
    if t >= 32 then 6 else if t >= 16 then 5 else if t >= 8 then 4
    else if t >= 4 then 3 else if t >= 2 then 2 else if t >= 1 then 1 else 0
  }

  /** Section 6.2: the word the YM3014B is fed. */
  function DacWord(acc: int): int {
    var s := Clamp16(acc);
    var w := POW2[DacExponent(s)];
    (s / w) * w
  }

  // ---------------- section 1.3: counters ----------------

  predicate TremoloTurn(tout: int) {
    tout == 0 || (Bit(tout, 1) && Bit(tout, 8) && Bit(tout, 32) && Bit(tout, 64))
  }

  /** One master step of the noise register; test bit 7 shifts in ones. */
  function NoiseStep(N: bv32, ones: bool): bv32 {
    ((N << 1) | (if ones || N == 0 then 1 else ((N >> 22) ^ (N >> 8)) & 1)) & 0x7FFFFF
  }

  function NoiseSteps(N: bv32, ones: bool, n: nat): bv32
    decreases n
  {
    if n == 0 then N else NoiseSteps(NoiseStep(N, ones), ones, n - 1)
  }

  /** The number of low zero bits of t. */
  function TrailingZeros(t: int): (n: nat)
    requires t > 0
    decreases t
  {
    if t % 2 == 1 then 0 else 1 + TrailingZeros(t / 2)
  }

  /** The tremolo counter, at the start of the sample. */
  function TremoloNext(n: Counters, test: u8): Counters {
    var tof := TremoloTurn(n.tv % 128);
    var tdir := if tof && !n.tof then !n.tdir else n.tdir;
    var tv := if n.tstep || Bit(test, 8) then (n.tv + (if tdir then -1 else 1)) % 512 else n.tv;
    if Bit(test, 0x80) then n.(tof := tof, tv := 0, tdir := false) else n.(tof := tof, tv := tv, tdir := tdir)
  }

  /** The vibrato position, the low-frequency counter, the envelope timer and the noise, at the end. */
  function CountersEnd(n: Counters, test: u8): Counters {
    var test7 := Bit(test, 0x80);
    var sum := n.T + (if n.carry || n.sub then 1 else 0);
    var T := sum % 0x40000;
    n.(vib := if test7 then 0 else (n.vib + (if n.lfo == 1023 || Bit(test, 8) then 1 else 0)) % 8,
       lfo := if test7 then 0 else (n.lfo + 1) % 1024,
       tstep := !test7 && n.lfo % 64 == 63,
       T := T, carry := sum >= 0x40000, sub := !n.sub,
       egshift := if !n.sub then n.egshift else if T % 0x2000 == 0 then 0 else TrailingZeros(T) + 1,
       eglow := if n.sub then T % 4 else n.eglow,
       N := NoiseSteps(n.N, test7, 18))
  }

  function CountersNext(n: Counters, test: u8): Counters {
    CountersEnd(TremoloNext(n, test), test)
  }

  /** Section 4.3: rhythm freezes the history of channels 7 and 8. */
  function HistoryNext(c: Chip, rom: seq<int>, ch: int): History
    requires WellFormed(c) && RomOk(rom) && 0 <= ch < 9
  {
    if Rhythm(c.bd) && ch >= 7 then c.hist[ch] else History(ModOutput(c, rom, ch), c.hist[ch].h1)
  }

  function SlotsNext(c: Chip): seq<Slot>
    requires WellFormed(c)
  {
    seq(18, i requires 0 <= i < 18 => SlotNext(c, i))
  }

  function HistoriesNext(c: Chip, rom: seq<int>): seq<History>
    requires WellFormed(c) && RomOk(rom)
  {
    seq(9, ch requires 0 <= ch < 9 => HistoryNext(c, rom, ch))
  }

  /** What slot 15 adds to the next output. */
  function Held15Next(c: Chip, rom: seq<int>): int
    requires WellFormed(c) && RomOk(rom)
  {
    if Rhythm(c.bd) then 2 * CarMix(c, rom, 6) else CarMix(c, rom, 6)
  }

  /** What slots 16 and 17 add to the next output, before its rhythm bit weighs them. */
  function Held1617Next(c: Chip, rom: seq<int>): int
    requires WellFormed(c) && RomOk(rom)
  {
    if Rhythm(c.bd) then SnareMix(c, rom) + CymbalMix(c, rom)
    else CarMix(c, rom, 7) + CarMix(c, rom, 8)
  }

  /** The chip after the sample, registers as they are. */
  function Rendered(c: Chip, rom: seq<int>): Chip
    requires WellFormed(c) && RomOk(rom)
  {
    var p := Phase10(c.slots[17]);
    Chip(SlotsNext(c), c.cv, c.mv, HistoriesNext(c, rom), c.test, c.nts, c.bd, c.lag,
         CountersNext(c.cnt, c.test),
         if Rhythm(c.bd) then Bit(p, 8) else c.c3,
         if Rhythm(c.bd) then Bit(p, 32) else c.c5,
         Held15Next(c, rom), Held1617Next(c, rom))
  }

  // ---------------- section 7: register writes ----------------

  predicate IsOperatorReg(reg: u8) {
    (0x20 <= reg < 0xA0 || 0xE0 <= reg) && reg % 32 < 22 && reg % 8 < 6
  }

  predicate IsChannelReg(reg: u8) {
    0xA0 <= reg < 0xD0 && (reg % 16 < 12 || reg % 16 >= 14)
  }

  /** Offsets the engine acts on (section 7.1, without the timers 02 to 04). */
  predicate IsReg(reg: u8) {
    reg == 0x01 || reg == 0x08 || reg == 0xBD || IsOperatorReg(reg) || IsChannelReg(reg)
  }

  /** The operator an operator register belongs to. */
  function OffsetSlot(reg: u8): (i: int)
    requires IsOperatorReg(reg)
    ensures 0 <= i < 18
  {
    reg % 32 - 2 * (reg % 32 / 8)
  }

  /** The channel a channel register writes, through whichever of its addresses. */
  function TargetChannel(reg: u8): (c: int)
    requires IsChannelReg(reg)
    ensures 0 <= c < 9
  {
    var lo := reg % 16;
    if lo >= 14 then lo - 14 else if lo >= 9 then lo - 9 else lo
  }

  /** A9-AB, B9-BB and C9-CB reach both slots of channels 0 to 2 at once (section 7.6). */
  predicate IsAlias(reg: u8) { 9 <= reg % 16 < 14 }

  function WriteView(v: View, reg: u8, d: u8): (v': View)
    ensures ViewOk(v) ==> ViewOk(v')
  {
    if reg < 0xB0 then v.(fnum := v.fnum / 256 * 256 + d)
    else if reg < 0xC0 then v.(fnum := d % 4 * 256 + v.fnum % 256, blk := (d / 4) % 8, kon := Bit(d, 32))
    else v.(con := d % 2 == 1, fb := (d / 2) % 8)
  }

  /** Section 7.6: the carrier sees a channel write now. The modulator side of channels 0 to 2
      follows one sample later unless the address is an alias, and so does FB of channels 3 to 5. */
  function ChannelWrite(c: Chip, reg: u8, d: u8): (c': Chip)
    requires WellFormed(c) && IsChannelReg(reg)
    ensures WellFormed(c')
  {
    var ch := TargetChannel(reg);
    var cv := c.cv[ch := WriteView(c.cv[ch], reg, d)];
    if ch < 3 && !IsAlias(reg) then
      c.(cv := cv, lag := c.lag[ch := true])
    else
      var mv := WriteView(c.mv[ch], reg, d);
      if reg >= 0xC0 && 3 <= ch < 6
      then c.(cv := cv, mv := c.mv[ch := mv.(fb := c.mv[ch].fb)], lag := c.lag[ch := true])
      else c.(cv := cv, mv := c.mv[ch := mv])
  }

  function WriteRegisters(o: Registers, reg: u8, d: u8, wse: bool): (o': Registers)
    ensures 0 <= o.ws < 4 ==> 0 <= o'.ws < 4
  {
    if reg < 0x40 then o.(r20 := d)
    else if reg < 0x60 then o.(r40 := d)
    else if reg < 0x80 then o.(r60 := d)
    else if reg < 0xA0 then o.(r80 := d)
    else if wse then o.(ws := d % 4)
    else o
  }

  function OperatorWrite(c: Chip, reg: u8, d: u8): (c': Chip)
    requires WellFormed(c) && IsOperatorReg(reg)
    ensures WellFormed(c')
  {
    var i := OffsetSlot(reg);
    var s := c.slots[i];
    c.(slots := c.slots[i := s.(regs := WriteRegisters(s.regs, reg, d, Bit(c.test, 0x20)))])
  }

  /** Section 5.4: turning rhythm on takes c3 and c5 from slot 0's phase. */
  function RhythmWrite(c: Chip, d: u8): (c': Chip)
    requires WellFormed(c)
    ensures WellFormed(c')
  {
    var p := Phase10(c.slots[0]);
    if !Rhythm(c.bd) && Rhythm(d) then c.(bd := d, c3 := Bit(p, 8), c5 := Bit(p, 32)) else c.(bd := d)
  }

  /** What a write makes of the registers. */
  function Apply(c: Chip, w: Write): (c': Chip)
    requires WellFormed(c) && IsReg(w.reg)
    ensures WellFormed(c')
  {
    if w.reg == 0x01 then c.(test := w.val)
    else if w.reg == 0x08 then c.(nts := Bit(w.val, 0x40))
    else if w.reg == 0xBD then RhythmWrite(c, w.val)
    else if IsChannelReg(w.reg) then ChannelWrite(c, w.reg, w.val)
    else OperatorWrite(c, w.reg, w.val)
  }

  function FollowedView(c: Chip, ch: int): View
    requires WellFormed(c) && 0 <= ch < 9
  {
    if ch >= 6 || !c.lag[ch] then c.mv[ch]
    else if ch < 3 then c.cv[ch]
    else c.mv[ch].(fb := c.cv[ch].fb)
  }

  /** The halves of section 7.6 that follow by one sample. */
  function Follow(c: Chip): (c': Chip)
    requires WellFormed(c)
    ensures WellFormed(c')
  {
    c.(mv := seq(9, ch requires 0 <= ch < 9 => FollowedView(c, ch)), lag := NO_LAG)
  }

  predicate LateHalf(lag: seq<bool>)
    requires |lag| == 6
  {
    lag[0] || lag[1] || lag[2]
  }

  /** Section 7.8: whether the oldest write is applied before this sample. */
  predicate Takes(m: Machine)
    requires |m.chip.lag| == 6
  {
    !LateHalf(m.chip.lag) && m.credit >= 96 && |m.queue| > 0
  }

  function CreditNext(credit: int, waiting: bool): int {
    var cap := if waiting then 192 else 96;
    if credit + 72 > cap then cap else credit + 72
  }

  predicate QueueOk(q: seq<Write>) {
    |q| <= QUEUE_SIZE && forall i :: 0 <= i < |q| ==> IsReg(q[i].reg)
  }

  /** The late halves, then at most one write, then the credit. */
  function Commit(m: Machine): (m': Machine)
    requires WellFormed(m.chip) && QueueOk(m.queue)
    ensures WellFormed(m'.chip) && QueueOk(m'.queue)
  {
    var c := Follow(m.chip);
    if Takes(m) then
      m.(chip := Apply(c, m.queue[0]), queue := m.queue[1..],
         credit := CreditNext(m.credit - 96, |m.queue| > 1))
    else
      m.(chip := c, credit := CreditNext(m.credit, |m.queue| > 0))
  }

  /** One sample: the machine after it, and the word the DAC is fed. */
  function Sample(m: Machine, rom: seq<int>): (r: (Machine, int))
    requires WellFormed(m.chip) && QueueOk(m.queue) && RomOk(rom)
  {
    var m' := Commit(m);
    (m'.(chip := Rendered(m'.chip, rom)), DacWord(Accumulator(m'.chip, rom)))
  }

  /** A write offered to the queue (opl.h). */
  function Push(m: Machine, w: Write): Machine {
    if !IsReg(w.reg) then m
    else if |m.queue| < QUEUE_SIZE then m.(queue := m.queue + [w])
    else if m.drops < MAX_DROPS then m.(drops := m.drops + 1)
    else m
  }

  const COUNTERS_RESET: Counters := Counters(0, 0, 0, false, true, false, 0, false, false, 0, 0, 1)

  /** Section 8.3. */
  function ResetMachine(): Machine {
    var view := View(0, 0, false, false, 0);
    Machine(
      Chip(seq(18, _ => Slot(0, 0x1FF, Release, Registers(0, 0, 0, 0, 0))), seq(9, _ => view), seq(9, _ => view),
           seq(9, _ => History(0, 0)), 0, false, 0, NO_LAG,
           COUNTERS_RESET, false, false, 0, 0),
      [], 96, 0)
  }
}
