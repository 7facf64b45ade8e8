/** What an operator sounds like and how operators make up the word the DAC is fed (sections 3.5 to 6 of
    src/core/aud/opl.md), in plain arithmetic. */
module OplTone {
  import opened Common
  import opened OplSpec
  import opened OplCaches
  import opened OplRuns
  import opened OplLaws

  // ---------------- attenuation ----------------

  /** The logarithm to base 2, rounded up. */
  function LogUp(x: nat): nat { if x <= 1 then 0 else 1 + LogUp((x + 1) / 2) }

  function Eighth(x: nat): nat { x * x * (x * x) * (x * x * (x * x)) }

  lemma {:induction false} LogUpIs(x: nat, n: nat)
    requires x <= Power2(n) && (if n == 0 then x == 1 else Power2(n - 1) < x)
    ensures LogUp(x) == n
    decreases n
  {
    if n > 0 {
      LogUpIs((x + 1) / 2, n - 1);
    }
  }

  lemma BigPowers()
    ensures Power2(18) == 0x4_0000 && Power2(19) == 0x8_0000 && Power2(20) == 0x10_0000 && Power2(21) == 0x20_0000
    ensures Power2(22) == 0x40_0000 && Power2(23) == 0x80_0000 && Power2(24) == 0x100_0000
    ensures Power2(25) == 0x200_0000 && Power2(26) == 0x400_0000 && Power2(27) == 0x800_0000
    ensures Power2(28) == 0x1000_0000 && Power2(29) == 0x2000_0000 && Power2(30) == 0x4000_0000
    ensures Power2(31) == 0x8000_0000 && Power2(32) == 0x1_0000_0000
    ensures Power2(15) == 0x8000 && Power2(16) == 0x1_0000 && Power2(12) == 4096 && Power2(13) == 8192
    ensures Power2(7) == 128 && Power2(8) == 256 && Power2(0) == 1
  {
    PowTable();
    assert Power2(16) == 0x1_0000;
    assert Power2(20) == 0x10_0000;
    assert Power2(24) == 0x100_0000;
    assert Power2(28) == 0x1000_0000;
  }

  lemma LowEighths()
    ensures Eighth(1) == 1 && LogUp(1) == 0
    ensures Eighth(2) == 256 && LogUp(256) == 8
    ensures Eighth(3) == 6561 && LogUp(6561) == 13
    ensures Eighth(4) == 65536 && LogUp(65536) == 16
    ensures Eighth(5) == 390625 && LogUp(390625) == 19
    ensures Eighth(6) == 1679616 && LogUp(1679616) == 21
    ensures Eighth(7) == 5764801 && LogUp(5764801) == 23
  {
    BigPowers();
    hide Power2, LogUp;
    LogUpIs(1, 0);
    LogUpIs(256, 8);
    LogUpIs(6561, 13);
    LogUpIs(65536, 16);
    LogUpIs(390625, 19);
    LogUpIs(1679616, 21);
    LogUpIs(5764801, 23);
  }

  lemma HighEighths()
    ensures Eighth(8) == 16777216 && LogUp(16777216) == 24
    ensures Eighth(9) == 43046721 && LogUp(43046721) == 26
    ensures Eighth(10) == 100000000 && LogUp(100000000) == 27
    ensures Eighth(11) == 214358881 && LogUp(214358881) == 28
    ensures Eighth(12) == 429981696 && LogUp(429981696) == 29
    ensures Eighth(13) == 815730721 && LogUp(815730721) == 30
    ensures Eighth(14) == 1475789056 && LogUp(1475789056) == 31
    ensures Eighth(15) == 2562890625 && LogUp(2562890625) == 32
  {
    BigPowers();
    hide Power2, LogUp;
    LogUpIs(16777216, 24);
    LogUpIs(43046721, 26);
    LogUpIs(100000000, 27);
    LogUpIs(214358881, 28);
    LogUpIs(429981696, 29);
    LogUpIs(815730721, 30);
    LogUpIs(1475789056, 31);
    LogUpIs(2562890625, 32);
  }

  /** The table of section 3.5 is eight times the logarithm of the F-number's top four bits, rounded up, and
      32 more. */
  lemma KslTable(top: int)
    requires 1 <= top < 16
    ensures KSLROM[top] == 32 + LogUp(Eighth(top))
  {
    LowEighths();
    HighEighths();
    hide LogUp, Eighth;
    assert top in {1, 2, 3, 4, 5, 6, 7} || top in {8, 9, 10, 11, 12, 13, 14, 15};
  }

  /** How much an operator's key scaling takes off a note, eight to an octave before its register weighs it:
      not at all for 0, doubled for 1, once for 2 and four times for 3. */
  function Scaling(ksl: int, v: View): int
    requires ViewOk(v) && 0 <= ksl < 4
  {
    var top := v.fnum / 64;
    var k := if top == 0 then 0 else LogUp(Eighth(top)) + 8 * v.blk - 32;
    if ksl == 0 || k < 0 then 0 else if ksl == 1 then 2 * k else if ksl == 2 then k else 4 * k
  }

  /** The level an operator is heard at: its envelope's, its total level's six bits four times over, its key
      scaling, and with AM up the tremolo; 511 at most. */
  lemma AttenuationLaw(s: Slot, x: Around)
    requires SlotOk(s) && AroundOk(x)
    ensures var o := s.regs;
      var sum := s.level + 4 * (o.r40 % 64) + Scaling(o.r40 / 64, x.view) + if o.r20 >= 128 then x.amv else 0;
      Attenuation(s, x) == if sum > 511 then 511 else sum
  {
    BaseIs(x.view);
    ScalingIs(s.regs.r40 / 64, x.view);
    hide KslBase, Scaling, ViewOk;
    assert (s.regs.r20 / 128) % 2 == 1 <==> s.regs.r20 >= 128;
  }

  lemma BaseIs(v: View)
    requires ViewOk(v)
    ensures KslBase(v) == Scaling(2, v)
  {
    var top := v.fnum / 64;
    assert 0 <= top < 16;
    if top > 0 {
      KslTable(top);
    }
    hide LogUp, Eighth;
  }

  lemma ScalingIs(ksl: int, v: View)
    requires ViewOk(v) && 0 <= ksl < 4
    ensures Scaling(ksl, v) ==
            if ksl == 0 then 0 else if ksl == 1 then 2 * Scaling(2, v) else if ksl == 2 then Scaling(2, v)
            else 4 * Scaling(2, v)
  {
    hide LogUp, Eighth;
  }

  /** And as the chip has it: the operator's own view, and the tremolo's counter by quarters or, with its depth
      bit down, by sixteenths. */
  lemma LoudnessLaw(c: Chip, i: int)
    requires WellFormed(c) && 0 <= i < 18
    ensures var s, tremolo := c.slots[i], if c.bd >= 128 then c.cnt.tv % 128 / 4 else c.cnt.tv % 128 / 16;
      var sum := s.level + 4 * (s.regs.r40 % 64) + Scaling(s.regs.r40 / 64, SlotView(c, i))
                 + if s.regs.r20 >= 128 then tremolo else 0;
      AttenuationAt(c, i) == if sum > 511 then 511 else sum
  {
    assert SlotOk(c.slots[i]);
    AttenuationLaw(c.slots[i], AroundAt(c, i));
    TremoloLaw(c);
    hide WellFormed, Key, SlotView, Attenuation, Scaling, Tremolo;
  }

  lemma TremoloLaw(c: Chip)
    ensures Tremolo(c) == if c.bd >= 128 then c.cnt.tv % 128 / 4 else c.cnt.tv % 128 / 16
  {
  }

  // ---------------- the operator ----------------

  /** A rising quarter of a sine at full phase: the exponential of the sum of the log-sine and the
      attenuation, which halves with every 256. */
  lemma QuarterLaw(rom: seq<int>, p: int, a: int)
    requires RomOk(rom) && 0 <= p < 256 && 0 <= a <= 511
    ensures var e := if rom[p] + 8 * a > 4095 then 4095 else rom[p] + 8 * a;
      Operator(rom, p, 0, a) == rom[256 + e % 256] / Power2(e / 256)
  {
    var e := if rom[p] + 8 * a > 4095 then 4095 else rom[p] + 8 * a;
    hide Power2, Shr, RomOk, Operator;
    QuarterShifted(rom, p, a);
    ShrIs(rom[256 + e % 256], e / 256);
  }

  lemma QuarterShifted(rom: seq<int>, p: int, a: int)
    requires RomOk(rom) && 0 <= p < 256 && 0 <= a <= 511
    ensures var e := if rom[p] + 8 * a > 4095 then 4095 else rom[p] + 8 * a;
      0 <= e < 4096 && Operator(rom, p, 0, a) == Shr(rom[256 + e % 256], e / 256)
  {
    Quadrants(p);
    hide Shr;
  }

  lemma ShrIs(v: int, n: int)
    requires 0 <= n < 16
    ensures Shr(v, n) == v / Power2(n)
  {
    PowTable();
    BigPowers();
    assert Power2(14) == 16384;
    hide Power2;
  }

  /** A wave is its first quarter there and back, and for the second half its one's complement, nothing, or
      itself; the fourth wave drops the falling quarters. */
  lemma WaveLaw(rom: seq<int>, p: int, a: int)
    requires RomOk(rom) && 0 <= p < 256 && 0 <= a <= 511
    ensures var v := Operator(rom, p, 0, a);
      && 0 <= v
      && Operator(rom, 511 - p, 0, a) == v
      && Operator(rom, 512 + p, 0, a) == -v - 1 && Operator(rom, 1023 - p, 0, a) == -v - 1
      && Operator(rom, p, 1, a) == v && Operator(rom, 511 - p, 1, a) == v
      && Operator(rom, 512 + p, 1, a) == 0 && Operator(rom, 1023 - p, 1, a) == 0
      && Operator(rom, p, 2, a) == v && Operator(rom, 511 - p, 2, a) == v
      && Operator(rom, 512 + p, 2, a) == v && Operator(rom, 1023 - p, 2, a) == v
      && Operator(rom, p, 3, a) == v && Operator(rom, 511 - p, 3, a) == 0
      && Operator(rom, 512 + p, 3, a) == v && Operator(rom, 1023 - p, 3, a) == 0
  {
    hide Shr, RomOk, Operator;
    Quadrants(p);
    PointLaw(rom, p, p, false, false, a);
    PointLaw(rom, p, 511 - p, false, true, a);
    PointLaw(rom, p, 512 + p, true, false, a);
    PointLaw(rom, p, 1023 - p, true, true, a);
  }

  /** Each of the four waves at a place of the same height as p. */
  lemma PointLaw(rom: seq<int>, p: int, q: int, sign: bool, falling: bool, a: int)
    requires RomOk(rom) && 0 <= p < 256 && 0 <= a <= 511
    requires q % 1024 == q && (q / 512 == 1 <==> sign) && (q / 256 % 2 == 1 <==> falling)
    requires q % 256 == if falling then 255 - p else p
    ensures var v := Operator(rom, p, 0, a);
      && 0 <= v && Operator(rom, q, 0, a) == (if sign then -v - 1 else v)
      && Operator(rom, q, 1, a) == (if sign then 0 else v) && Operator(rom, q, 2, a) == v
      && Operator(rom, q, 3, a) == (if falling then 0 else v)
  {
    Quadrants(p);
    hide Shr, RomOk;
  }

  lemma Quadrants(p: int)
    requires 0 <= p < 256
    ensures p % 1024 == p && p / 512 == 0 && p / 256 == 0 && p % 256 == p
    ensures var q := 511 - p; q % 1024 == q && q / 512 == 0 && q / 256 == 1 && q % 256 == 255 - p
    ensures var q := 512 + p; q % 1024 == q && q / 512 == 1 && (q / 256) % 2 == 0 && q % 256 == p
    ensures var q := 1023 - p; q % 1024 == q && q / 512 == 1 && (q / 256) % 2 == 1 && q % 256 == 255 - p
  {
  }

  /** It comes round every 1024. */
  lemma PeriodLaw(rom: seq<int>, p: int, ws: int, a: int)
    requires RomOk(rom) && 0 <= ws < 4 && 0 <= a <= 511
    ensures Operator(rom, p, ws, a) == Operator(rom, p % 1024, ws, a)
  {
    assert p % 1024 % 1024 == p % 1024;
    SamePhase(rom, p, p % 1024, ws, a);
  }

  lemma SamePhase(rom: seq<int>, p: int, q: int, ws: int, a: int)
    requires RomOk(rom) && 0 <= ws < 4 && 0 <= a <= 511 && p % 1024 == q % 1024
    ensures Operator(rom, p, ws, a) == Operator(rom, q, ws, a)
  {
    hide Shr, RomOk;
  }

  /** Feedback weighs a modulator's last two outputs: a quarter of their sum at 7, and half as much with
      each step down. */
  lemma FeedbackLaw(h: History, fb: int)
    requires 0 <= fb < 8
    ensures Feedback(h, fb) == if fb == 0 then 0 else (h.h1 + h.h2) / Power2(9 - fb)
  {
    PowTable();
    hide Power2;
  }

  /** A channel's first operator, at its own phase's top ten bits and its last two outputs weighed. */
  lemma ModulatorLaw(c: Chip, rom: seq<int>, ch: int)
    requires WellFormed(c) && RomOk(rom) && 0 <= ch < 9
    ensures var i, fb := 6 * (ch / 3) + ch % 3, c.mv[ch].fb;
      ModOutput(c, rom, ch) ==
      Operator(rom, c.slots[i].phase / 512 + (if fb == 0 then 0 else (c.hist[ch].h1 + c.hist[ch].h2) / Power2(9 - fb)),
               c.slots[i].regs.ws, AttenuationAt(c, i))
  {
    ModSlotIs(ch);
    var i := ModSlot(ch);
    FeedbackLaw(c.hist[ch], c.mv[ch].fb);
    assert SlotView(c, i) == c.mv[ch];
    assert SlotOk(c.slots[i]);
    PhaseTen(c.slots[i]);
    hide WellFormed, Operator, RomOk, Attenuation, Feedback, Power2, Key, Phase10, ModSlot, SlotView;
  }

  /** Its second, at its own phase and, in series, the first's output. */
  lemma CarrierLaw(c: Chip, rom: seq<int>, ch: int)
    requires WellFormed(c) && RomOk(rom) && 0 <= ch < 9
    ensures var i := 6 * (ch / 3) + ch % 3 + 3;
      CarOutput(c, rom, ch) ==
      Operator(rom, c.slots[i].phase / 512 + (if c.mv[ch].con then 0 else ModOutput(c, rom, ch)),
               c.slots[i].regs.ws, AttenuationAt(c, i))
  {
    ModSlotIs(ch);
    var i := ModSlot(ch) + 3;
    assert SlotOk(c.slots[i]);
    PhaseTen(c.slots[i]);
    hide WellFormed, Operator, RomOk, Attenuation, Key, Phase10, ModSlot, SlotView, ModOutput;
  }

  /** The first operator's last two outputs, the later one first; the drums keep none. */
  lemma HistoryLaw(c: Chip, rom: seq<int>, ch: int)
    requires WellFormed(c) && RomOk(rom) && 0 <= ch < 9
    ensures |Rendered(c, rom).hist| == 9
    ensures Rendered(c, rom).hist[ch] ==
            if (c.bd / 32) % 2 == 1 && ch >= 7 then c.hist[ch] else History(ModOutput(c, rom, ch), c.hist[ch].h1)
  {
    hide WellFormed, RomOk, ModOutput, CountersNext, Held15Next, Held1617Next, SlotsNext;
  }

  lemma PhaseTen(s: Slot)
    requires SlotOk(s)
    ensures Phase10(s) == s.phase / 512
  {
  }

  lemma ModSlotIs(ch: int)
    requires 0 <= ch < 9
    ensures ModSlot(ch) == 6 * (ch / 3) + ch % 3
  {
  }

  // ---------------- the mix ----------------

  /** An operator that has died away is left out, but for the sample that keys it. */
  lemma MuteLaw(c: Chip, i: int)
    requires WellFormed(c) && 0 <= i < 18
    ensures var s := c.slots[i];
      EnvelopeAt(c, i).mute <==> s.stage != Attack && s.level >= 504 && !(s.stage == Release && Key(c, i))
  {
    hide Key, RateOf, StepCode;
    assert SlotOk(c.slots[i]);
    hide WellFormed;
  }

  /** What a channel adds: its carrier, and its modulator as well when they are side by side. */
  function Adds(c: Chip, rom: seq<int>, ch: int): int
    requires WellFormed(c) && RomOk(rom) && 0 <= ch < 9
  {
    var i := 6 * (ch / 3) + ch % 3;
    (if c.mv[ch].con && !EnvelopeAt(c, i).mute then ModOutput(c, rom, ch) else 0)
    + if EnvelopeAt(c, i + 3).mute then 0 else CarOutput(c, rom, ch)
  }

  function AddsMod(c: Chip, rom: seq<int>, ch: int): int
    requires WellFormed(c) && RomOk(rom) && 0 <= ch < 9
  {
    var i := 6 * (ch / 3) + ch % 3;
    if c.mv[ch].con && !EnvelopeAt(c, i).mute then ModOutput(c, rom, ch) else 0
  }

  function AddsCar(c: Chip, rom: seq<int>, ch: int): int
    requires WellFormed(c) && RomOk(rom) && 0 <= ch < 9
  {
    if EnvelopeAt(c, 6 * (ch / 3) + ch % 3 + 3).mute then 0 else CarOutput(c, rom, ch)
  }

  lemma MixIs(c: Chip, rom: seq<int>, ch: int)
    requires WellFormed(c) && RomOk(rom) && 0 <= ch < 9
    ensures ModMix(c, rom, ch) == AddsMod(c, rom, ch) && CarMix(c, rom, ch) == AddsCar(c, rom, ch)
    ensures Adds(c, rom, ch) == AddsMod(c, rom, ch) + AddsCar(c, rom, ch)
  {
    ModSlotIs(ch);
    hide WellFormed, RomOk, EnvelopeAt, ModOutput, CarOutput, ModSlot;
  }

  function Six(c: Chip, rom: seq<int>): int
    requires WellFormed(c) && RomOk(rom)
  {
    Adds(c, rom, 0) + Adds(c, rom, 1) + Adds(c, rom, 2) + Adds(c, rom, 3) + Adds(c, rom, 4) + Adds(c, rom, 5)
  }

  /** Without rhythm all nine channels add up, the carriers of the last three a sample late. */
  function Melody(c: Chip, rom: seq<int>): int
    requires WellFormed(c) && RomOk(rom)
  {
    c.held15 + c.held1617 + Six(c, rom) + AddsMod(c, rom, 6) + AddsMod(c, rom, 7) + AddsMod(c, rom, 8)
  }

  /** With rhythm six channels add up and the drums come in doubled: the hi-hat and the tom at once, the bass
      drum's carrier, the snare and the cymbal a sample late, and the bass drum's modulator never. */
  function Drums(c: Chip, rom: seq<int>): int
    requires WellFormed(c) && RomOk(rom)
  {
    c.held15 + 2 * c.held1617 + Six(c, rom)
    + 2 * Drum(c, rom, 13, HihatPhase(c.slots[13].phase / 512, c.c3, c.c5, (c.cnt.N >> 9) & 1 == 1))
    + 2 * Drum(c, rom, 14, c.slots[14].phase / 512)
  }

  lemma MelodyLaw(c: Chip, rom: seq<int>)
    requires WellFormed(c) && RomOk(rom) && (c.bd / 32) % 2 == 0
    ensures Accumulator(c, rom) == Melody(c, rom)
    ensures Rendered(c, rom).held15 + Rendered(c, rom).held1617 ==
            AddsCar(c, rom, 6) + AddsCar(c, rom, 7) + AddsCar(c, rom, 8)
  {
    hide *;
    SixChannels(c, rom);
    MixIs(c, rom, 6);
    MixIs(c, rom, 7);
    MixIs(c, rom, 8);
    HeldParts(c, rom);
    MelodyParts(c, rom);
  }

  lemma MelodyParts(c: Chip, rom: seq<int>)
    requires WellFormed(c) && RomOk(rom) && (c.bd / 32) % 2 == 0
    ensures Accumulator(c, rom) == c.held15 + c.held1617 + MelodicMix(c, rom, 6)
      + ModMix(c, rom, 6) + ModMix(c, rom, 7) + ModMix(c, rom, 8)
    ensures Held15Next(c, rom) == CarMix(c, rom, 6) && Held1617Next(c, rom) == CarMix(c, rom, 7) + CarMix(c, rom, 8)
    ensures Melody(c, rom) == c.held15 + c.held1617 + Six(c, rom) + AddsMod(c, rom, 6) + AddsMod(c, rom, 7)
      + AddsMod(c, rom, 8)
  {
    hide WellFormed, RomOk, MelodicMix, ModMix, CarMix, Six, AddsMod, HihatMix, TomMix, SnareMix, CymbalMix;
  }

  lemma SixChannels(c: Chip, rom: seq<int>)
    requires WellFormed(c) && RomOk(rom)
    ensures MelodicMix(c, rom, 6) == Six(c, rom)
  {
    hide *;
    MelodicStep(c, rom, 0);
    MelodicStep(c, rom, 1);
    MelodicStep(c, rom, 2);
    MelodicStep(c, rom, 3);
    MelodicStep(c, rom, 4);
    MelodicStep(c, rom, 5);
    SixIs(c, rom);
  }

  lemma SixIs(c: Chip, rom: seq<int>)
    requires WellFormed(c) && RomOk(rom)
    ensures MelodicMix(c, rom, 0) == 0
    ensures Six(c, rom) ==
            Adds(c, rom, 0) + Adds(c, rom, 1) + Adds(c, rom, 2) + Adds(c, rom, 3) + Adds(c, rom, 4) + Adds(c, rom, 5)
  {
    hide Adds, WellFormed, RomOk;
  }

  lemma MelodicStep(c: Chip, rom: seq<int>, n: int)
    requires WellFormed(c) && RomOk(rom) && 0 <= n < 6
    ensures MelodicMix(c, rom, n + 1) == MelodicMix(c, rom, n) + Adds(c, rom, n)
  {
    MixIs(c, rom, n);
    hide WellFormed, RomOk, ModMix, CarMix, Adds, AddsMod, AddsCar;
  }

  lemma HeldParts(c: Chip, rom: seq<int>)
    requires WellFormed(c) && RomOk(rom)
    ensures Rendered(c, rom).held15 == Held15Next(c, rom) && Rendered(c, rom).held1617 == Held1617Next(c, rom)
  {
    hide WellFormed, RomOk, Held15Next, Held1617Next, HistoriesNext, SlotsNext, CountersNext;
  }

  lemma DrumsLaw(c: Chip, rom: seq<int>)
    requires WellFormed(c) && RomOk(rom) && (c.bd / 32) % 2 == 1
    ensures Accumulator(c, rom) == Drums(c, rom)
    ensures Rendered(c, rom).held15 == 2 * AddsCar(c, rom, 6)
    ensures Rendered(c, rom).held1617 ==
            Drum(c, rom, 16, SnarePhase(c.slots[13].phase / 512, (c.cnt.N >> 6) & 1 == 1))
            + Drum(c, rom, 17, CymbalPhase(c.slots[13].phase / 512, c.slots[17].phase / 512))
  {
    hide *;
    SixChannels(c, rom);
    MixIs(c, rom, 6);
    HeldParts(c, rom);
    DrumMixes(c, rom);
    DrumParts(c, rom);
  }

  lemma DrumParts(c: Chip, rom: seq<int>)
    requires WellFormed(c) && RomOk(rom) && (c.bd / 32) % 2 == 1
    ensures Accumulator(c, rom) == c.held15 + 2 * c.held1617 + MelodicMix(c, rom, 6) + 2 * HihatMix(c, rom)
      + 2 * TomMix(c, rom)
    ensures Held15Next(c, rom) == 2 * CarMix(c, rom, 6)
    ensures Held1617Next(c, rom) == SnareMix(c, rom) + CymbalMix(c, rom)
    ensures Drums(c, rom) == c.held15 + 2 * c.held1617 + Six(c, rom)
      + 2 * Drum(c, rom, 13, HihatPhase(c.slots[13].phase / 512, c.c3, c.c5, (c.cnt.N >> 9) & 1 == 1))
      + 2 * Drum(c, rom, 14, c.slots[14].phase / 512)
  {
    hide WellFormed, RomOk, MelodicMix, ModMix, CarMix, Six, Drum, HihatMix, TomMix, SnareMix, CymbalMix, HihatPhase;
  }

  lemma DrumMixes(c: Chip, rom: seq<int>)
    requires WellFormed(c) && RomOk(rom)
    ensures HihatMix(c, rom) == Drum(c, rom, 13,
      HihatPhase(c.slots[13].phase / 512, c.c3, c.c5, (c.cnt.N >> 9) & 1 == 1))
    ensures TomMix(c, rom) == Drum(c, rom, 14, c.slots[14].phase / 512)
    ensures SnareMix(c, rom) == Drum(c, rom, 16, SnarePhase(c.slots[13].phase / 512, (c.cnt.N >> 6) & 1 == 1))
    ensures CymbalMix(c, rom) == Drum(c, rom, 17, CymbalPhase(c.slots[13].phase / 512, c.slots[17].phase / 512))
  {
    assert SlotOk(c.slots[13]) && SlotOk(c.slots[14]) && SlotOk(c.slots[17]);
    PhaseTen(c.slots[13]);
    PhaseTen(c.slots[14]);
    PhaseTen(c.slots[17]);
    hide WellFormed, RomOk, Operator, AttenuationAt, HihatPhase, SnarePhase, CymbalPhase, Phase10, EnvelopeAt;
  }

  /** A drum at a phase of its own. */
  function Drum(c: Chip, rom: seq<int>, i: int, p: int): int
    requires WellFormed(c) && RomOk(rom) && 0 <= i < 18
  {
    if EnvelopeAt(c, i).mute then 0 else Operator(rom, p, c.slots[i].regs.ws, AttenuationAt(c, i))
  }

  /** The three drums that use no phase of their own: the hi-hat's and the cymbal's halves go by four bits of
      the hi-hat's phase and two of the cymbal's, and the hi-hat's and the snare's places in them by the
      noise. */
  lemma DrumPhases(h: int, p: int, c3: bool, c5: bool, noise: bool)
    requires 0 <= h < 1024 && 0 <= p < 1024
    ensures var rough := (h / 4 % 2 != h / 128 % 2) || (h / 8 % 2 == 1) != c5 || c3 != c5;
      HihatPhase(h, c3, c5, noise) == if rough then (if noise then 564 else 720) else if noise then 208 else 52
    ensures SnarePhase(h, noise) == if h / 256 % 2 == 1 then (if noise then 512 else 768) else if noise then 256 else 0
    ensures var rough := h / 4 % 2 != h / 128 % 2 || h / 8 % 2 != p / 32 % 2 || p / 8 % 2 != p / 32 % 2;
      CymbalPhase(h, p) == if rough then 768 else 256
  {
  }

  /** With rhythm the hi-hat of the next sample and the cymbal of this one hear two bits of the cymbal's phase;
      without it they stay. */
  lemma LatchLaw(c: Chip, rom: seq<int>)
    requires WellFormed(c) && RomOk(rom)
    ensures var r, p := Rendered(c, rom), c.slots[17].phase / 512;
      if (c.bd / 32) % 2 == 1 then r.c3 == (p / 8 % 2 == 1) && r.c5 == (p / 32 % 2 == 1)
      else r.c3 == c.c3 && r.c5 == c.c5
  {
    assert SlotOk(c.slots[17]);
    PhaseTen(c.slots[17]);
    hide WellFormed, RomOk, Phase10, CountersNext, Held15Next, Held1617Next, SlotsNext, HistoriesNext;
  }

  /** A sum held to sixteen bits with its low bits cleared: as few as leave ten, as a float with that many
      would. */
  predicate Rounded(word: int, sum: int, e: nat) {
    var s := if sum > 32767 then 32767 else if sum < -32768 then -32768 else sum;
    && e <= 6 && word <= s < word + Power2(e) && word % Power2(e) == 0
    && -512 * Power2(e) <= s < 512 * Power2(e)
    && (e > 0 ==> !(-512 * Power2(e - 1) <= s < 512 * Power2(e - 1)))
  }

  lemma DacLaw(acc: int) returns (e: nat)
    ensures Rounded(DacWord(acc), acc, e)
  {
    var s := Clamp16(acc);
    e := DacExponent(s);
    ExponentIs(s);
    PowTable();
    assert POW2[e] == Power2(e) by { OctaveIs(e); }
    hide DacExponent, Power2;
    FloorTo(s, POW2[e]);
  }

  /** What one sample says: the sum of its channels, and with rhythm of its drums, as the DAC takes it. */
  lemma WordLaw(m: Machine, rom: seq<int>) returns (e: nat)
    requires AtRest(m) && RomOk(rom)
    ensures WellFormed(Commit(m).chip)
    ensures var c := Commit(m).chip;
      Rounded(Sample(m, rom).1, if (c.bd / 32) % 2 == 0 then Melody(c, rom) else Drums(c, rom), e)
  {
    CommitClocks(m);
    var c := Commit(m).chip;
    if (c.bd / 32) % 2 == 0 {
      MelodyLaw(c, rom);
    } else {
      DrumsLaw(c, rom);
    }
    hide AtRest, WellFormed, RomOk, Commit, Accumulator, Melody, Drums, Drum, Rendered, DacWord, Rounded, AddsCar;
    hide SnarePhase, CymbalPhase;
    e := DacLaw(Accumulator(c, rom));
  }

  lemma ExponentIs(s: int)
    requires -32768 <= s <= 32767
    ensures var e := DacExponent(s);
      && 0 <= e <= 6
      && (e == 0 <==> -512 <= s < 512)
      && (e == 1 <==> -1024 <= s < 1024 && !(-512 <= s < 512))
      && (e == 2 <==> -2048 <= s < 2048 && !(-1024 <= s < 1024))
      && (e == 3 <==> -4096 <= s < 4096 && !(-2048 <= s < 2048))
      && (e == 4 <==> -8192 <= s < 8192 && !(-4096 <= s < 4096))
      && (e == 5 <==> -16384 <= s < 16384 && !(-8192 <= s < 8192))
      && (e == 6 <==> !(-16384 <= s < 16384))
  {
    var t := s / 512;
    assert -64 <= t <= 63;
    assert (if t < 0 then -t - 1 else t) % 64 == if t < 0 then -t - 1 else t;
  }

  lemma FloorTo(s: int, w: int)
    requires w > 0
    ensures s / w * w <= s < s / w * w + w && (s / w * w) % w == 0
  {
    assert s == w * (s / w) + s % w;
    ModOf(w, s / w, 0);
  }
}
