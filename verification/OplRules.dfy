/** Why one sample of the engine's kernels (opl_eg, opl_chan and opl_rhythm of src/core/aud/opl.c) is
    one sample of the specification: lemmas over the values a kernel starts from. */
module OplRules {
  import opened Common
  import opened OplSpec
  import opened OplCaches
  import opened OplSlotModel

  /** A channel's feedback history, packed, and its CON and FB as the samples use them. */
  datatype OplChan = OplChan(
    hist: int,  // two outputs in a word, the newer on top
    incl: int,  // a mask: all ones when the modulator is heard itself
    fbl: int)   // how far their sum is shifted, 32 for none

  /** The channel against the history and modulator view it stands for. */
  ghost predicate ChanIs(k: OplChan, h: History, mv: View) {
    0 <= k.hist < WORD && UnpackHistory(k.hist) == h && Out13(h.h1) && Out13(h.h2) && FollowsView(k, mv)
  }

  predicate FollowsView(k: OplChan, mv: View) {
    k.incl == (if mv.con then -1 else 0) && k.fbl == if mv.fb == 0 then 32 else 13 + mv.fb
  }

  /** Slot s stands for slot i of chip c. */
  ghost predicate Holds(s: OplSlot, c: Chip, i: int) {
    WellFormed(c) && 0 <= i < 18 && Is(s, c.slots[i], SlotView(c, i), Key(c, i), c.nts)
  }

  /** Slot s has been through the sample that slot i of chip c was about to run. */
  ghost predicate Passed(s: OplSlot, c: Chip, i: int) {
    WellFormed(c) && 0 <= i < 18 && After(s, c.slots[i], AroundAt(c, i))
  }

  ghost predicate ChanHolds(k: OplChan, c: Chip, n: int) {
    WellFormed(c) && 0 <= n < 9 && ChanIs(k, c.hist[n], c.mv[n])
  }

  ghost predicate ChanPassed(k: OplChan, c: Chip, rom: seq<int>, n: int) {
    WellFormed(c) && RomOk(rom) && 0 <= n < 9 && ChanIs(k, HistoryNext(c, rom, n), c.mv[n])
  }

  /** s is what envelope e leaves, and no longer waits. */
  ghost predicate Stepped(s: OplSlot, e: Envelope) {
    && s.level == e.level && s.stage == e.stage && s.rec.mute == (if e.mute then 0 else -1)
    && 0 <= s.level <= 0x1FF && Settled(s)
  }

  /** The phase after slot s's envelope, its increment already added: restarted on a key-on edge, and
      moved to the variant of vibrato position fix where one waits. */
  function EventPhase(s: OplSlot, inc: int, fix: int, dvb: bool): int
    requires |s.cache.inc| == 7 && 0 <= fix < 8
  {
    if s.stage == Release && s.cache.key && s.rec.span == 0 then inc
    else if fix != 0 then (s.P + s.cache.inc[Variant(dvb, fix)] - inc) % WORD
    else s.P
  }

  /** vi is the vibrato variant of this sample's position, or that position waits in fix with the
      slot forced and its key unchanged. */
  ghost predicate VariantReady(s: OplSlot, x: Around, fix: int, dvb: bool, vi: int)
    requires 0 <= x.vib < 8
  {
    if fix == 0 then vi == Variant(dvb, x.vib)
    else fix == x.vib && s.rec.span == 0 && (s.cache.key <==> s.stage != Release)
  }

  ghost predicate SampleFits(rom: seq<int>, table: seq<int>, dvb: bool, x: Around, amv: int) {
    RomOk(rom) && AroundOk(x) && TableOk(table, x.timer) && amv == x.amv && dvb == x.dvb
  }

  lemma SlotsOfChannel(n: int)
    requires 0 <= n < 9
    ensures forall i :: 0 <= i < 18 && ChannelOf(i) == n ==> i == ModSlot(n) || i == ModSlot(n) + 3
    ensures n < 6 ==> ModSlot(n) + 3 < 12
    ensures n >= 6 ==> ModSlot(n) == n + 6
  {
  }

  lemma WellSized(c: Chip)
    requires WellFormed(c)
    ensures |c.slots| == 18 && |c.cv| == 9 && |c.mv| == 9 && |c.hist| == 9 && |c.lag| == 6
  {
  }

  lemma LowSlots()
    ensures forall i :: 0 <= i < 12 ==> ChannelOf(i) < 6
  {
  }

  /** Down by one, modulo 512, is up by 511. */
  function TremoloMove(tv: int, down: bool): int { (tv + (if down then 511 else 1)) % 512 }

  lemma TremoloDown(tv: int, down: bool)
    ensures TremoloMove(tv, down) == (tv + (if down then -1 else 1)) % 512
  {
  }

  lemma CountersGood(c: Chip)
    requires WellFormed(c)
    ensures CountersOk(c.cnt)
  {
  }

  lemma TremoloKeeps(n: Counters, test: u8)
    requires CountersOk(n)
    ensures var e := TremoloNext(n, test);
      && CountersOk(e) && e.vib == n.vib && e.lfo == n.lfo && e.tstep == n.tstep && e.T == n.T && e.carry == n.carry
      && e.sub == n.sub && e.egshift == n.egshift && e.eglow == n.eglow && e.N == n.N
  {
    hide TremoloTurn;
  }

  lemma RenderedParts(c: Chip, rom: seq<int>)
    requires WellFormed(c) && RomOk(rom)
    ensures var r := Rendered(c, rom);
      && r.cv == c.cv && r.mv == c.mv && r.test == c.test && r.nts == c.nts && r.bd == c.bd && r.lag == c.lag
      && r.cnt == CountersNext(c.cnt, c.test) && |r.hist| == 9 && |r.slots| == 18
      && (forall n :: 0 <= n < 9 ==> r.hist[n] == HistoryNext(c, rom, n))
      && 0 <= CountersNext(c.cnt, c.test).vib < 8
      && (Bit(c.test, 0x80) ==> CountersNext(c.cnt, c.test).vib == 0)
  {
    CountersStay(c.cnt, c.test);
    hide NoiseSteps, TrailingZeros;
  }

  lemma RenderedWellFormed(c: Chip, rom: seq<int>)
    requires WellFormed(c) && RomOk(rom)
    ensures WellFormed(Rendered(c, rom))
  {
    CountersStay(c.cnt, c.test);
    hide CountersNext, SlotEnvelope;
    forall i | 0 <= i < 18
      ensures SlotOk(SlotNext(c, i))
    {
      EnvelopeLevel(c.slots[i], AroundAt(c, i));
    }
  }

  lemma EnvelopeLevel(o: Slot, x: Around)
    requires ViewOk(x.view)
    ensures 0 <= SlotEnvelope(o, x).level <= 0x1FF
  {
    hide StepCode, RateOf;
  }

  lemma FirstSlot(n: int)
    requires 0 <= n < 9
    ensures ModSlot(n) == 0 <==> n == 0
  {
  }

  /** Rhythm freezes the histories of channels 7 and 8. */
  lemma Frozen(k: OplChan, c: Chip, rom: seq<int>, n: int)
    requires RomOk(rom) && Rhythm(c.bd) && 7 <= n < 9 && ChanHolds(k, c, n)
    ensures ChanPassed(k, c, rom, n)
  {
    hide ChanIs;
  }

  /** x & mask for a mask of 0 or -1. */
  function Mask(x: int, mask: int): int { if mask == 0 then 0 else x }

  lemma SlotBasics(s: OplSlot, o: Slot, x: Around)
    requires Is(s, o, x.view, x.key, x.nts)
    ensures |s.cache.inc| == 7 && 0 <= o.regs.ws < 4 && s.cache.wav == WAV[o.regs.ws] && s.cache.wav in WAV
    ensures s.P == 8192 * o.phase && PhaseTop(s.P) == Phase10(o)
  {
    hide StageByte, RecordFits, RateFits, LevelFits;
  }

  lemma ModSame(a: int, b: int, c: int)
    requires b % 1024 == c % 1024
    ensures (a + b) % 1024 == (a + c) % 1024
  {
    assert b == 1024 * (b / 1024) + b % 1024;
    assert c == 1024 * (c / 1024) + b % 1024;
    var d := b / 1024 - c / 1024;
    assert a + b == (a + c) + 1024 * d;
    assert ((a + c) + 1024 * d) % 1024 == (a + c) % 1024;
  }

  /** The modulator's output from the packed history. */
  lemma ModulatorValue(rom: seq<int>, o: Slot, x: Around, h: History, hist: int, fbl: int)
    requires RomOk(rom) && SlotOk(o) && AroundOk(x)
    requires UnpackHistory(hist) == h && Out13(h.h1) && Out13(h.h2)
    requires fbl == if x.view.fb == 0 then 32 else 13 + x.view.fb
    ensures OpValue(rom, WAV[o.regs.ws], Phase10(o)
      + FeedbackTop(NewOutput(hist) + OldOutput(hist), fbl), Attenuation(o, x))
            == ModulatorOut(rom, o, x, h)
    ensures NewOutput(hist) == h.h1
  {
    hide Attenuation, Operator, OpValue, FeedbackTop, Feedback;
    FeedbackTopIs(h, x.view.fb);
    var a, b := Phase10(o), FeedbackTop(h.h1 + h.h2, fbl);
    ModSame(a, b, Feedback(h, x.view.fb));
    OpValueIsOperator(rom, o.regs.ws, a + b, Attenuation(o, x));
    OperatorModulo(rom, a + b, a + Feedback(h, x.view.fb), o.regs.ws, Attenuation(o, x));
  }

  lemma CarrierValue(rom: seq<int>, o: Slot, x: Around, con: bool, mo: int)
    requires RomOk(rom) && SlotOk(o) && AroundOk(x)
    ensures OpValue(rom, WAV[o.regs.ws], Phase10(o) + (if con then 0 else mo), Attenuation(o, x))
            == CarrierOut(rom, o, x, con, mo)
  {
    hide Attenuation, Operator, OpValue;
    OpValueIsOperator(rom, o.regs.ws, Phase10(o) + (if con then 0 else mo), Attenuation(o, x));
  }

  lemma SilentValue(rom: seq<int>, ws: int, p: int)
    requires RomOk(rom) && 0 <= ws < 4
    ensures OpValue(rom, WAV[ws], p, 0x1FF) == if WAV[ws] == 0x80000000 && Bit(p % 1024, 0x200) then -1 else 0
  {
    hide Operator, OpValue;
    OpValueIsOperator(rom, ws, p, 0x1FF);
    SilentOperator(rom, p, ws);
  }

  /** A slot muted at its fixed point is its own next state, silent, once its phase has moved. */
  lemma MutedSlot(s: OplSlot, o: Slot, x: Around, vi: int, P: int)
    requires AroundOk(x) && SlotOk(o) && 0 <= vi < 7 && vi == Variant(x.dvb, x.vib)
    requires s.rec.qm && Is(s, o, x.view, x.key, x.nts)
    requires P == AddPhase(s.P, s.cache.inc[vi])
    ensures After(s.(P := P), o, x)
    ensures SlotEnvelope(o, x).mute && Attenuation(o, x) == 0x1FF
  {
    hide StageByte, IndexRule, RatesCached, NtsFlips, SlotEnvelope, StepSlot, IncrementTable, KslTl, Variant;
    IndexRuleIsEnvelope(o, x, s.cache.r6w);
    MutedRule(s.stage, s.cache.slv, s.cache.r6w, s.cache.key, x.timer);
    PhaseRule(o, x, vi, 0, P);
    StepIs(o, x, P / 8192, s.level, s.stage);
  }

  /** A cached slot's own fields give the rules of the specification. */
  lemma SlotReady(s: OplSlot, o: Slot, x: Around, vi: int)
    requires AroundOk(x) && SlotOk(o) && 0 <= vi < 7
    requires s.level == o.level && s.stage == o.stage && s.regs == o.regs
    requires Ready(s, x.view, x.key, x.nts)
    ensures IndicesOk(s.cache.r6w) && s.cache.inc == IncrementTable(x.view, o.regs.r20)
    ensures Rule(s, x.timer) == SlotEnvelope(o, x)
    ensures SlotEnvelope(o, x).edge == (s.stage == Release && s.cache.key)
    ensures 0 <= s.cache.inc[vi] < WORD && s.cache.inc[vi] % 8192 == 0
    ensures Attenuation(o, x) == LevelTerm(s.level, s.cache.ta, x.amv)
  {
    hide StageByte, IndexRule, RatesCached, NtsFlips, SlotEnvelope, IncrementTable, KslTl, RecordFits;
    CachedRatesSmall(s.cache.r6w, s.regs, x.view, x.nts);
    IndexRuleIsEnvelope(o, x, s.cache.r6w);
    IncrementShape(x.view, s.regs.r20, vi);
    EnvelopeEdge(o, x);
    TaParts(s.regs.r20, s.regs.r40, x.view);
  }

  /** The attenuation from a level, the cached KSL and TL term and the tremolo value. */
  function LevelTerm(level: int, ta: int, amv: int): int {
    var a := level + ta % 0x10000 + (if ta / 0x10000 == 0 then 0 else amv % 256);
    if a > 0x1FF then 0x1FF else a
  }

  lemma StepIs(o: Slot, x: Around, phase: int, level: int, stage: Stage)
    requires ViewOk(x.view)
    requires phase == StepSlot(o, x).phase && level == SlotEnvelope(o, x).level && stage == SlotEnvelope(o, x).stage
    ensures StepSlot(o, x) == Slot(phase, level, stage, o.regs)
  {
    hide SlotEnvelope, SlotIncrement;
  }

  lemma TaParts(r20: u8, r40: u8, v: View)
    requires ViewOk(v)
    ensures 0 <= KslTl(r40, v) < 0x10000
    ensures var ta := (if Bit(r20, 0x80) then 0xFF0000 else 0) + KslTl(r40, v);
      ta % 0x10000 == KslTl(r40, v) && ta / 0x10000 == if Bit(r20, 0x80) then 0xFF else 0
  {
  }

  lemma UndoIncrement(a: int, b: int, x: int)
    ensures ((a + b) % WORD + x - b) % WORD == (a + x) % WORD
  {
    var q := (a + b) / WORD;
    assert (a + b) % WORD + x - b == a + x + (-q) * WORD;
    ModMultiple(a + x, -q);
  }

  lemma EnvelopeEdge(o: Slot, x: Around)
    requires ViewOk(x.view)
    ensures SlotEnvelope(o, x).edge <==> (o.stage == Release && x.key)
  {
    hide StepCode, RateOf;
  }

  /** The phase after a sample: the slot's own increment, whichever variant was added first. */
  lemma PhaseRule(o: Slot, x: Around, vi: int, fix: int, P: int)
    requires AroundOk(x) && SlotOk(o) && 0 <= vi < 7 && 0 <= fix < 8
    requires if fix == 0 then vi == Variant(x.dvb, x.vib) else fix == x.vib && !SlotEnvelope(o, x).edge
    requires var table := IncrementTable(x.view, o.regs.r20);
      var inc := table[vi];
      P == if SlotEnvelope(o, x).edge then inc
           else if fix != 0 then ((8192 * o.phase + inc) % WORD + table[Variant(x.dvb, fix)] - inc) % WORD
           else (8192 * o.phase + inc) % WORD
    ensures 0 <= P < WORD && P % 8192 == 0 && P / 8192 == StepSlot(o, x).phase
  {
    hide SlotEnvelope, SlotIncrement, IncrementTable;
    var table := IncrementTable(x.view, o.regs.r20);
    var inc := SlotIncrement(o.regs.r20, x.view, x.vib, x.dvb);
    var full := (8192 * inc) % WORD;
    CachedIncrement(o.regs.r20, x.view, x.vib, x.dvb);
    if fix != 0 {
      UndoIncrement(8192 * o.phase, table[vi], full);
    }
    PhaseShifted(o.phase, inc, P, SlotEnvelope(o, x).edge);
  }

  lemma PhaseShifted(phase: int, inc: int, P: int, edge: bool)
    requires 0 <= phase < 0x80000
    requires var full := (8192 * inc) % WORD; P == if edge then full else (8192 * phase + full) % WORD
    ensures 0 <= P < WORD && P % 8192 == 0
    ensures P / 8192 == if edge then inc % 0x80000 else (phase + inc) % 0x80000
  {
    ScaleMod(inc);
    ShiftedPhase(8192 * phase, inc);
  }

  lemma KeyOnRule(level: int, slv: int, r6w: bv32, t: Timer)
    requires 0 <= level <= 0x1FF && StageByte(r6w, Attack) <= 65
    ensures IndexRule(level, Release, true, r6w, slv, t) ==
            Envelope(if 60 <= StageByte(r6w, Attack) < 64 then 0 else level, Attack, false, true)
  {
    hide StageByte, StepCode;
  }

  lemma KeyOffRule(level: int, stage: Stage, slv: int, r6w: bv32, t: Timer)
    requires 0 <= level <= 0x1FF && stage != Release
    ensures IndexRule(level, stage, false, r6w, slv, t) ==
      if stage != Attack && level >= 0x1F8 then Envelope(0x1FF, Release, true, false)
      else if stage == Sustain || (stage == Decay && level / 16 != slv)
      then Envelope(level + LINEAR[IndexStep(StageByte(r6w, stage), t)], Release, false, false)
      else Envelope(level, Release, false, false)
  {
    hide StageByte, StepCode;
  }

  lemma PassedHolds(s: OplSlot, c: Chip, rom: seq<int>, i: int)
    requires WellFormed(c) && RomOk(rom) && 0 <= i < 18 && Passed(s, c, i)
    ensures Holds(s, Rendered(c, rom), i) && Settled(s)
  {
    RenderedWellFormed(c, rom);
    hide CountersNext, HistoriesNext, Held15Next, Held1617Next, StepSlot, Cached, RecordFits;
  }

  // ---------------- writes ----------------

  /** A slot whose F-number, block and key do not change stays what it is. */
  lemma HoldsKept(s: OplSlot, c: Chip, c': Chip, i: int)
    requires Holds(s, c, i) && WellFormed(c') && c'.slots[i] == c.slots[i] && c'.nts == c.nts && Key(c', i) == Key(c, i)
    requires SlotView(c', i).fnum == SlotView(c, i).fnum && SlotView(c', i).blk == SlotView(c, i).blk
    ensures Holds(s, c', i)
  {
    hide PhaseFits, LevelFits, RateFits, RecordFits;
    CachesMove(s.cache, s.regs, SlotView(c, i), SlotView(c', i), s.cache.key, c.nts);
  }

  /** Drum keys of slots 12 to 17. */
  const DRUMBIT: seq<int> := [16, 1, 4, 16, 8, 2]

  lemma DrumBits(bd: u8, i: int)
    requires 12 <= i < 18
    ensures DrumKey(bd, i) <==> Rhythm(bd) && Bit(bd, DRUMBIT[i - 12])
  {
    hide Bit;
  }

  lemma NoDrum(bd: u8, i: int)
    requires 0 <= i < 12
    ensures !DrumKey(bd, i)
  {
  }

  /** A0: F-number low bits. Tells whether they changed. */
  method ViewA(v: OplView, reg: u8, d: u8) returns (r: OplView, what: Change)
    requires v.Valid() && 0xA0 <= reg < 0xB0
    ensures r.Valid() && r.Regs() == WriteView(v.Regs(), reg, d)
    ensures Tells(what, v, r)
  {
    var f := v.fnum / 256 * 256 + d;
    if f == v.fnum {
      return v, Change(false, false, false);
    }
    what := Change(true, false, false);
    r := v.(fnum := f);
    if f / 64 != v.fnum / 64 {
      r := ViewK6(r);
    }
  }

  /** B0: F-number high bits, block and key. */
  method ViewB(v: OplView, reg: u8, d: u8) returns (r: OplView, what: Change)
    requires v.Valid() && 0xB0 <= reg < 0xC0
    ensures r.Valid() && r.Regs() == WriteView(v.Regs(), reg, d)
    ensures Tells(what, v, r)
  {
    var f, b, k := d % 4 * 256 + v.fnum % 256, (d / 4) % 8, Bit(d, 32);
    r := v;
    var moved := f != v.fnum || b != v.blk;
    if moved {
      r := ViewK6(v.(fnum := f, blk := b));
    }
    what := Change(moved, moved, k != v.kon);
    r := r.(kon := k);
  }

  method ViewAb(v: OplView, reg: u8, d: u8) returns (r: OplView, what: Change)
    requires v.Valid() && 0xA0 <= reg < 0xC0
    ensures r.Valid() && r.Regs() == WriteView(v.Regs(), reg, d)
    ensures Tells(what, v, r)
  {
    if reg < 0xB0 {
      r, what := ViewA(v, reg, d);
    } else {
      r, what := ViewB(v, reg, d);
    }
  }

  function ViewK6(v: OplView): (r: OplView)
    requires ViewOk(v.Regs())
    ensures r.Valid() && r.Regs() == v.Regs()
  {
    var k6 := KSLROM[v.fnum / 64] - 8 * (8 - v.blk);
    v.(k6 := if k6 < 0 then 0 else k6)
  }

  /** what says at least where two views differ, CON and FB aside. */
  predicate Tells(what: Change, v: OplView, r: OplView) {
    && (what.high ==> what.low)
    && (!what.low ==> r.fnum == v.fnum && r.blk == v.blk)
    && (!what.high ==> r.fnum / 256 == v.fnum / 256 && r.blk == v.blk)
    && (!what.key ==> r.kon == v.kon)
  }

  /** A0 and B0 writes leave CON and FB. */
  lemma KeepsFb(v: View, reg: u8, d: u8)
    requires reg < 0xC0
    ensures WriteView(v, reg, d).con == v.con && WriteView(v, reg, d).fb == v.fb
  {
    hide Bit;
  }

  lemma SameKsl(v: OplView, con: bool, fb: int)
    requires v.Valid() && 0 <= fb < 8
    ensures v.(con := con, fb := fb).Valid()
  {
  }

  /** c3 and c5 where the engine keeps them. */
  function CymbalLatch(c: Chip): int { (if c.c3 then 8 else 0) + (if c.c5 then 32 else 0) }

  lemma PhaseIs(s: OplSlot, c: Chip, i: int)
    requires Holds(s, c, i)
    ensures PhaseTop(s.P) == Phase10(c.slots[i])
  {
    hide PhaseFits, LevelFits, RateFits, SelfFits, RecordFits;
  }

  /** The slot of each operator offset, with 0 where an offset has none. */
  const OFF2SLOT: seq<int> := [0, 1, 2, 3, 4, 5, 0, 0, 6, 7, 8, 9, 10, 11, 0, 0, 12, 13, 14, 15, 16, 17]

  lemma OffsetTable(reg: u8)
    requires IsOperatorReg(reg)
    ensures reg % 32 < 22 && OFF2SLOT[reg % 32] == OffsetSlot(reg)
  {
  }

  /** What an FB and CON write does to its channel, half by half. */
  lemma ChannelC(c: Chip, reg: u8, d: u8)
    requires WellFormed(c) && IsChannelReg(reg) && reg >= 0xC0
    ensures var n, con, fb := TargetChannel(reg), d % 2 == 1, (d / 2) % 8;
      var e := c.(cv := c.cv[n := c.cv[n].(con := con, fb := fb)]);
      var v := c.mv[n].(con := con);
      ChannelWrite(c, reg, d) ==
        if n < 3 && !IsAlias(reg) then e.(lag := c.lag[n := true])
        else if 3 <= n < 6 then e.(mv := c.mv[n := v], lag := c.lag[n := true])
        else e.(mv := c.mv[n := v.(fb := fb)])
  {
  }

  /** What a write leaves alone, and what it does to the rest. */
  lemma AppliedParts(c: Chip, reg: u8, d: u8)
    requires WellFormed(c) && IsReg(reg)
    ensures var c2 := Apply(c, Write(reg, d));
      && c2.cnt == c.cnt && c2.hist == c.hist && c2.held15 == c.held15 && c2.held1617 == c.held1617
      && (reg != 0x01 ==> c2.test == c.test)
      && (!IsChannelReg(reg) ==> c2.lag == c.lag)
      && (reg != 0xBD ==> c2.bd == c.bd && c2.c3 == c.c3 && c2.c5 == c.c5)
      && (reg != 0x08 ==> c2.nts == c.nts)
  {
    hide WriteView, WriteRegisters, Bit;
  }

  lemma RhythmParts(c: Chip, d: u8)
    requires WellFormed(c)
    ensures var c2 := RhythmWrite(c, d);
      && WellFormed(c2) && c2.slots == c.slots && c2.cv == c.cv && c2.mv == c.mv && c2.hist == c.hist
      && c2.nts == c.nts && c2.bd == d
      && CymbalLatch(c2) == if !Rhythm(c.bd) && Rhythm(d) then CymbalBits(Phase10(c.slots[0])) else CymbalLatch(c)
  {
    hide Bit, Rhythm;
  }

  lemma NoHistory()
    ensures UnpackHistory(0) == History(0, 0)
  {
  }

  /** A bitmap of the registers, eight to a byte. */
  const OPL_REGS: seq<int> := [
    0x02, 0x01, 0x00, 0x00, 0x3F, 0x3F, 0x3F, 0x00,
    0x3F, 0x3F, 0x3F, 0x00, 0x3F, 0x3F, 0x3F, 0x00,
    0x3F, 0x3F, 0x3F, 0x00, 0xFF, 0xCF, 0xFF, 0xEF,
    0xFF, 0xCF, 0x00, 0x00, 0x3F, 0x3F, 0x3F, 0x00]

  predicate RegBit(reg: u8) { Bit(OPL_REGS[reg / 8], POW2[reg % 8]) }

  /** The table is section 7.1's list. */
  lemma RegBits(reg: u8)
    ensures RegBit(reg) <==> IsReg(reg)
  {
    var k, b := reg / 8, reg % 8;
    assert reg == 8 * k + b;
    RegParts(k, b);
    ByteBits(b);
    if k < 8 {
      RowLow(k, b);
    } else if k < 20 {
      RowOperators(k, b);
    } else if k < 26 {
      RowChannels(k, b);
    } else {
      RowHigh(k, b);
    }
  }

  lemma RegParts(k: int, b: int)
    requires 0 <= b < 8 && 0 <= k < 32
    ensures var r := 8 * k + b; r % 8 == b && r % 16 == 8 * (k % 2) + b && r % 32 == 8 * (k % 4) + b && r / 8 == k
  {
  }

  /** The bits of the bytes the table is made of. */
  lemma ByteBits(b: int)
    requires 0 <= b < 8
    ensures !Bit(0, POW2[b]) && Bit(0xFF, POW2[b]) && (Bit(1, POW2[b]) <==> b == 0) && (Bit(2, POW2[b]) <==> b == 1)
    ensures (Bit(0x3F, POW2[b]) <==> b < 6) && (Bit(0xCF, POW2[b]) <==> b < 4 || b >= 6)
    ensures (Bit(0xEF, POW2[b]) <==> b != 4)
  {
    assert b == 0 || b == 1 || b == 2 || b == 3 || b == 4 || b == 5 || b == 6 || b == 7;
  }

  lemma RowLow(k: int, b: int)
    requires 0 <= k < 8 && 0 <= b < 8
    ensures Bit(OPL_REGS[k], POW2[b]) <==> IsReg(8 * k + b)
  {
    RegParts(k, b);
    ByteBits(b);
    hide Bit;
    assert k == 0 || k == 1 || k == 2 || k == 3 || k == 4 || k == 5 || k == 6 || k == 7;
  }

  lemma RowOperators(k: int, b: int)
    requires 8 <= k < 20 && 0 <= b < 8
    ensures Bit(OPL_REGS[k], POW2[b]) <==> IsReg(8 * k + b)
  {
    RegParts(k, b);
    ByteBits(b);
    hide Bit;
    assert k == 8 || k == 9 || k == 10 || k == 11 || k == 12 || k == 13 || k == 14 || k == 15 || k == 16 || k == 17
      || k == 18 || k == 19;
  }

  lemma RowChannels(k: int, b: int)
    requires 20 <= k < 26 && 0 <= b < 8
    ensures Bit(OPL_REGS[k], POW2[b]) <==> IsReg(8 * k + b)
  {
    RegParts(k, b);
    ByteBits(b);
    hide Bit;
    assert k == 20 || k == 21 || k == 22 || k == 23 || k == 24 || k == 25;
  }

  lemma RowHigh(k: int, b: int)
    requires 26 <= k < 32 && 0 <= b < 8
    ensures Bit(OPL_REGS[k], POW2[b]) <==> IsReg(8 * k + b)
  {
    RegParts(k, b);
    ByteBits(b);
    hide Bit;
    assert k == 26 || k == 27 || k == 28 || k == 29 || k == 30 || k == 31;
  }
}
