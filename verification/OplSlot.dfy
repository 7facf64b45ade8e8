/** One operator as the engine keeps it (opl_slot_t of src/core/aud/opl.c): its registers, its
    phase and level, and the caches and envelope record its samples run on. */
module OplSlotModel {
  import opened Common
  import opened OplSpec
  import opened OplCaches

  const NONE := 64  // rate index with no step
  const ATTK := 72  // added to an index for its attack step

  const WAV: seq<int> := [0x80000000, 0x200, 0, 0x100]
  const KSLMUL: seq<int> := [0, 2, 1, 4]

  /** One side's view of a channel, and the KSL attenuation that follows from it. */
  datatype OplView = OplView(fnum: int, blk: int, kon: bool, con: bool, fb: int, k6: int) {
    function Regs(): View { View(fnum, blk, kon, con, fb) }

    ghost predicate Valid() { ViewOk(Regs()) && k6 == KslBase(Regs()) }
  }

  /** Levels from lo, span of them, in which the envelope only steps, and the table entry it steps by. */
  datatype Record = Record(
    lo: int,
    span: int,   // 0: re-evaluate
    rc: int,     // step table index, ATTK + rate index in attack
    qm: bool,    // muted at a fixed point
    mute: int)   // a mask over this sample's output

  /** What the writes leave ready for the samples. */
  datatype Cache = Cache(
    key: bool,
    ta: int,       // attenuation in the low half, tremolo mask above it
    wav: int,      // the phase bit a waveform is zero or inverted on
    inc: seq<int>, // increment << 13 per vibrato variant
    r6w: bv32,     // rate index per stage, a byte each
    drec: int,     // record of decay from level 0, lo | span << 16
    slv: int,      // SL, 31 for 15
    nsx: bool)     // whether a change of NTS moves the rates

  datatype OplSlot = OplSlot(
    P: int,        // 19-bit phase accumulator << 13
    level: int,    // 9-bit attenuation
    stage: Stage,
    rec: Record,
    cache: Cache,
    regs: Registers)

  /** The envelope rule on a slot's cached rate indices. */
  function IndexRule(level: int, stage: Stage, key: bool, r6w: bv32, slv: int, t: Timer): Envelope {
    EnvelopeRule(level, stage, key, IndexRate(StageByte(r6w, if stage.Release? && key then Attack else stage)), slv, t)
  }

  lemma RuleOfRate(level: int, stage: Stage, key: bool, a: Rate, b: Rate, band: int, t: Timer)
    requires StepCode(a, t) == StepCode(b, t) && (a.rhi == 15 <==> b.rhi == 15)
    ensures EnvelopeRule(level, stage, key, a, band, t) == EnvelopeRule(level, stage, key, b, band, t)
  {
  }

  /** Cached indices give the rule of section 3.4. */
  lemma IndexRuleIsEnvelope(s: Slot, x: Around, r6w: bv32)
    requires ViewOk(x.view) && RatesCached(r6w, s.regs, x.view, x.nts)
    ensures IndexRule(s.level, s.stage, x.key, r6w, SustainBand(s.regs.r80), x.timer) == SlotEnvelope(s, x)
  {
    var o := s.regs;
    var sel := if s.stage.Release? && x.key then Attack else s.stage;
    assert SameIndex(StageByte(r6w, sel), SlotIndex(o, x.view, x.nts, sel));
    IndexIsRate(RateReg(o, sel), KeyScale(o.r20, x.view, x.nts), StageByte(r6w, sel), x.timer);
    RuleOfRate(s.level, s.stage, x.key, IndexRate(StageByte(r6w, sel)), RateOf(o, x.view, x.nts, sel),
               SustainBand(o.r80), x.timer);
  }

  /** The packed rate word of an operator's registers. */
  function RateWord(o: Registers, v: View, nts: bool): bv32
    requires ViewOk(v)
  {
    PackedWord(RateReg(o, Attack), RateReg(o, Decay), RateReg(o, Sustain), RateReg(o, Release), KeyScale(o.r20, v, nts))
  }

  /** The byte of no rate after a flip is 65 where packing afresh gives 64, for an operator whose key scale
      reads the F-number's second bit in place of its top one. */
  lemma NoRateFlips(st: Stage)
    ensures var o, v := Registers(0x10, 0, 0, 0, 0), View(0x100, 0, false, false, 0);
      var w := RateWord(o, v, false);
      && NtsFlips(o.r20, v) && StageByte(w, st) == 64
      && StageByte(FlipBytes(w), st) == 65 && StageByte(RateWord(o, v, true), st) == 64
  {
    hide StageByte, PackedWord, FlipBytes;
    PackedWordIsIndices(0, 0, 0, 0, 0);
    PackedWordIsIndices(0, 0, 0, 0, 1);
    StageByteFlips(PackedWord(0, 0, 0, 0, 0), st);
  }

  lemma RateWordIsCached(o: Registers, v: View, nts: bool)
    requires ViewOk(v)
    ensures RatesCached(RateWord(o, v, nts), o, v, nts)
  {
    var w := RateWord(o, v, nts);
    PackedWordIsIndices(RateReg(o, Attack), RateReg(o, Decay), RateReg(o, Sustain), RateReg(o, Release),
                        KeyScale(o.r20, v, nts));
    forall st: Stage ensures SameIndex(StageByte(w, st), SlotIndex(o, v, nts, st)) {
      match st case Attack => case Decay => case Sustain => case Release =>
    }
  }

  /** The record of an unforced slot: inside the range one table step is the whole rule, and
      outside it the stage change is. */
  ghost predicate RecordFits(level: int, stage: Stage, r: Record, r6w: bv32, slv: int) {
    if r.qm then
      && level == 0x1FF && stage != Attack && (stage != Decay || slv != 31) && 64 <= r.rc <= 65 && r.span == 1
      && ((r.lo == 0x1FF && r.mute == 0) || (r.lo == 0x200 && stage == Release))
    else
      && r.mute == -1
      && match stage
         case Attack =>
           r.lo == 1 && r.span == 0x1FF &&
           (if StageByte(r6w, Attack) >= 60 then 136 <= r.rc <= 137 else r.rc == ATTK + StageByte(r6w, Attack))
         case Decay =>
           r.rc == StageByte(r6w, Decay) &&
           ((r.lo == 0 && r.span == slv * 16 > 0 && level < slv * 16 + 16) ||
            (r.lo == slv * 16 + 16 && r.span == 0x1F8 - r.lo > 0 && level >= r.lo) ||
            (r.lo == 0x200 && r.span == 1 && slv == 0 && level < 16))
         case _ =>
           r.rc == StageByte(r6w, stage) && r.lo == 0 && r.span == 0x1F8
  }

  predicate InRecord(level: int, r: Record) { r.lo <= level < r.lo + r.span }

  /** What one table step adds to the level: a share of ~level in attack. */
  function TableStep(level: int, rc: int, byte: int): int {
    if rc >= ATTK then ((-level - 1) * byte) / 16 else byte
  }

  lemma AttackStep(level: int, step: int)
    requires 0 < level <= 0x1FF && 0 <= step <= 3
    ensures var add := (-level - 1) / 2;
      ((-level - 1) * (2 * LINEAR[step])) / 16 ==
      (if step == 1 then add / 4 else if step == 2 then add / 2 else if step == 3 then add else 0)
    ensures 0 <= level + ((-level - 1) * (2 * LINEAR[step])) / 16 <= level
  {
  }

  lemma NoStep(i: int, t: Timer)
    requires i >= 64
    ensures IndexStep(i, t) == 0
  {
  }

  lemma AttackRule(level: int, i: int, slv: int, r6w: bv32, t: Timer)
    requires i == StageByte(r6w, Attack) <= 65 && 0 < level <= 0x1FF
    ensures IndexRule(level, Attack, true, r6w, slv, t) ==
            Envelope(level + ((-level - 1) * (2 * LINEAR[IndexStep(if i >= 60 then NONE else i, t)])) / 16,
                     Attack, false, false)
    ensures 0 <= level + ((-level - 1) * (2 * LINEAR[IndexStep(if i >= 60 then NONE else i, t)])) / 16 <= level
  {
    hide StageByte, StepCode;
    NoStep(NONE, t);
    NoStep(64, t);
    NoStep(65, t);
    AttackStep(level, IndexStep(if i >= 60 then NONE else i, t));
  }

  lemma LinearRule(level: int, stage: Stage, slv: int, r6w: bv32, key: bool, t: Timer)
    requires stage != Attack && 0 <= level < 0x1F8 && (stage == Decay ==> level / 16 != slv)
    requires key <==> stage != Release
    ensures IndexRule(level, stage, key, r6w, slv, t) ==
            Envelope(level + LINEAR[IndexStep(StageByte(r6w, stage), t)], stage, false, false)
  {
    hide StageByte, StepCode;
  }

  lemma MutedRule(stage: Stage, slv: int, r6w: bv32, key: bool, t: Timer)
    requires stage != Attack && (stage != Decay || slv != 31) && (key <==> stage != Release)
    ensures IndexRule(0x1FF, stage, key, r6w, slv, t) == Envelope(0x1FF, stage, true, false)
  {
    hide StageByte, StepCode;
  }

  /** Inside the record, one step of the table is the whole rule, and the record still fits. */
  lemma RecordStep(level: int, stage: Stage, r: Record, r6w: bv32, slv: int, key: bool, t: Timer, table: seq<int>)
    requires RecordFits(level, stage, r, r6w, slv) && (key <==> stage != Release)
    requires TableOk(table, t) && StageByte(r6w, stage) <= 65 && 0 <= level <= 0x1FF && slv <= 31
    requires InRecord(level, r)
    ensures 0 <= r.rc < 144
    ensures var d := TableStep(level, r.rc, TableByte(table, r.rc));
      && IndexRule(level, stage, key, r6w, slv, t) == Envelope(level + d, stage, r.qm, false)
      && 0 <= level + d <= 0x1FF
      && RecordFits(level + d, stage, r, r6w, slv)
      && r.mute == if r.qm then 0 else -1
  {
    hide StageByte, StepCode, IndexRule, TableByte;
    if r.qm {
      NoStep(r.rc, t);
      assert TableByte(table, r.rc) == 0;
      MutedRule(stage, slv, r6w, key, t);
    } else if stage == Attack {
      var i := StageByte(r6w, Attack);
      AttackRule(level, i, slv, r6w, t);
      assert TableByte(table, 72 + (r.rc - 72)) == 2 * LINEAR[IndexStep(r.rc - 72, t)];
      if i >= 60 {
        NoStep(r.rc - 72, t);
        NoStep(NONE, t);
      }
    } else {
      LinearRule(level, stage, slv, r6w, key, t);
      assert TableByte(table, r.rc) == LINEAR[IndexStep(r.rc, t)];
    }
  }

  /** Outside it, the stage change is the whole rule. */
  lemma RecordLeave(level: int, stage: Stage, r: Record, r6w: bv32, slv: int, key: bool, t: Timer)
    requires RecordFits(level, stage, r, r6w, slv) && (key <==> stage != Release)
    requires 0 <= level <= 0x1FF && !InRecord(level, r)
    ensures Leaves(level, stage, slv)
    ensures !r.qm ==> r.mute == -1
  {
    hide StageByte;
  }

  /** A level at which the stage changes instead of stepping. */
  predicate Leaves(level: int, stage: Stage, slv: int) {
    if stage == Attack then level == 0
    else level >= 0x1F8 || (stage == Decay && level / 16 == slv)
  }

  lemma LeaveRule(level: int, stage: Stage, slv: int, key: bool, r6w: bv32, t: Timer)
    requires Leaves(level, stage, slv) && (key <==> stage != Release) && 0 <= level <= 0x1FF
    ensures IndexRule(level, stage, key, r6w, slv, t) ==
      if stage == Attack then Envelope(0, Decay, false, false)
      else if stage == Decay && level / 16 == slv && level < 0x1F8 then Envelope(level, Sustain, false, false)
      else Envelope(0x1FF, if stage == Decay && level / 16 == slv then Sustain else stage, true, false)
  {
    hide StageByte;
  }

  lemma CachedRatesSmall(w: bv32, o: Registers, v: View, nts: bool)
    requires ViewOk(v) && RatesCached(w, o, v, nts)
    ensures forall st: Stage :: 0 <= StageByte(w, st) <= 65
  {
    forall st: Stage ensures 0 <= StageByte(w, st) <= 65 {
      assert SameIndex(StageByte(w, st), SlotIndex(o, v, nts, st));
      IndexIsRate(RateReg(o, st), KeyScale(o.r20, v, nts), StageByte(w, st), Timer(false, 0, 0));
    }
  }

  predicate PhaseFits(inc: seq<int>, r20: u8, v: View) { ViewOk(v) && inc == IncrementTable(v, r20) }

  predicate LevelFits(ta: int, r20: u8, r40: u8, v: View) {
    ViewOk(v) && ta == (if Bit(r20, 0x80) then 0xFF0000 else 0) + KslTl(r40, v)
  }

  ghost predicate RateFits(r6w: bv32, nsx: bool, slv: int, o: Registers, v: View, nts: bool) {
    ViewOk(v) && RatesCached(r6w, o, v, nts) && nsx == NtsFlips(o.r20, v) && slv == SustainBand(o.r80)
  }

  /** The range of levels in which a decay just goes on; with sustain level 0 a range no level is in. */
  function DecayRecord(slv: int): int { if slv != 0 then slv * 0x100000 else 0x10200 }

  predicate SelfFits(wav: int, drec: int, slv: int, ws: int) {
    0 <= ws < 4 && wav == WAV[ws] && drec == DecayRecord(slv)
  }

  // ---------------- the operator ----------------

  /** opl_op: the waveform's zero mask and NOT half are bits of wav, tested against the phase. */
  function OpValue(rom: seq<int>, wav: int, p: int, eo: int): int
    requires RomOk(rom) && 0 <= eo <= 0x1FF && wav in WAV
  {
    var p := p % 1024;
    var idx := if Bit(p, 0x100) then 255 - p % 256 else p % 256;
    var sum := rom[idx] + 8 * eo;
    var att := if sum > 4095 then 4095 else sum;
    var v := Shr(rom[256 + att % 256], att / 256);
    var w := if wav != 0 && Bit(p, wav) then 0 else v;
    if wav == 0x80000000 && Bit(p, 0x200) then -w - 1 else w
  }

  lemma OpValueIsOperator(rom: seq<int>, ws: int, p: int, eo: int)
    requires RomOk(rom) && 0 <= eo <= 0x1FF && 0 <= ws < 4
    ensures OpValue(rom, WAV[ws], p, eo) == Operator(rom, p, ws, eo)
  {
    hide Shr;
    var q := p % 1024;
    assert !Bit(q, 0x80000000) && (Bit(q, 0x200) <==> q / 512 == 1);
  }

  /** At full attenuation only the NOT half of a sine is left. */
  lemma SilentOperator(rom: seq<int>, p: int, ws: int)
    requires RomOk(rom) && 0 <= ws < 4
    ensures Operator(rom, p, ws, 0x1FF) == if ws == 0 && Bit(p % 1024, 0x200) then -1 else 0
  {
    var q := p % 1024;
    var idx := if (q / 256) % 2 == 1 then 255 - q % 256 else q % 256;
    var att := if rom[idx] + 4088 > 4095 then 4095 else rom[idx] + 4088;
    assert att / 256 == 15;
    assert 2048 <= rom[256 + att % 256] <= 4084;
    assert Shr(rom[256 + att % 256], 15) == 0;
  }

  lemma OperatorModulo(rom: seq<int>, p: int, q: int, ws: int, eo: int)
    requires RomOk(rom) && 0 <= eo <= 0x1FF && 0 <= ws < 4 && p % 1024 == q % 1024
    ensures Operator(rom, p, ws, eo) == Operator(rom, q, ws, eo)
  {
  }

  /** The slot of the specification: registers, phase, level and stage. */
  function Abs(s: OplSlot): Slot { Slot(s.P / 8192, s.level, s.stage, s.regs) }

  predicate LevelOk(s: OplSlot) {
    0 <= s.level <= 0x1FF && 0 <= s.regs.ws < 4 && (0 <= s.cache.slv < 15 || s.cache.slv == 31)
  }

  predicate PhaseOk(P: int) { 0 <= P < WORD && P % 8192 == 0 }

  ghost predicate IndicesOk(w: bv32) { forall st: Stage :: 0 <= StageByte(w, st) <= 65 }

  /** Every cache is what the registers, the view, the key and NTS give. */
  ghost predicate Caches(k: Cache, o: Registers, v: View, key: bool, nts: bool) {
    && k.key == key && PhaseFits(k.inc, o.r20, v) && LevelFits(k.ta, o.r20, o.r40, v)
    && RateFits(k.r6w, k.nsx, k.slv, o, v, nts) && SelfFits(k.wav, k.drec, k.slv, o.ws)
  }

  /** An unforced slot's record fits its level and stage; key and stage then agree. */
  ghost predicate RecordOk(s: OplSlot) {
    if s.rec.span == 0 then !s.rec.qm
    else (s.cache.key <==> s.stage != Release) && RecordFits(s.level, s.stage, s.rec, s.cache.r6w, s.cache.slv)
  }

  ghost predicate Ready(s: OplSlot, v: View, k: bool, nts: bool) {
    LevelOk(s) && RecordOk(s) && Caches(s.cache, s.regs, v, k, nts)
  }

  ghost predicate Cached(s: OplSlot, v: View, k: bool, nts: bool) { PhaseOk(s.P) && Ready(s, v, k, nts) }

  /** Between samples no slot waits to re-evaluate. */
  ghost predicate Settled(s: OplSlot) { s.rec.span != 0 && RecordOk(s) }

  /** The slot stands for o, seen through view v under key k and NTS. */
  ghost predicate Is(s: OplSlot, o: Slot, v: View, k: bool, nts: bool) { Abs(s) == o && Cached(s, v, k, nts) }

  /** s has been through the sample that o was about to run. */
  ghost predicate After(s: OplSlot, o: Slot, x: Around)
    requires ViewOk(x.view)
  {
    Is(s, StepSlot(o, x), x.view, x.key, x.nts) && Settled(s)
  }

  ghost function Rule(s: OplSlot, t: Timer): Envelope {
    IndexRule(s.level, s.stage, s.cache.key, s.cache.r6w, s.cache.slv, t)
  }

  // ---------------- envelope events ----------------

  /** The record of a slot muted at its fixed point. */
  const MUTED: Record := Record(0x1FF, 1, NONE, true, 0)

  function EgMuted(s: OplSlot): OplSlot { s.(level := 0x1FF, rec := MUTED) }

  /** A record for a slot whose key suits its stage: where the stage is about to end, one the level is
      outside of. */
  method EgRec(s: OplSlot) returns (r: Record)
    requires 0 <= s.level <= 0x1FF && (0 <= s.cache.slv < 15 || s.cache.slv == 31)
    ensures r.span != 0 && r.span != 2 && RecordFits(s.level, s.stage, r, s.cache.r6w, s.cache.slv)
    ensures r.mute == (if r.qm then 0 else -1) && (r.qm ==> r.lo == 0x1FF && r.span == 1)
    ensures r.qm <==> s.level == 0x1FF && s.stage != Attack && (s.stage != Decay || s.cache.slv != 31)
  {
    hide StageByte;
    var st, lv, slv := s.stage, s.level, s.cache.slv;
    if st == Attack {
      var a := StageByte(s.cache.r6w, Attack);
      return Record(1, 0x1FF, ATTK + (if a >= 60 then NONE else a), false, -1);
    }
    if lv == 0x1FF && (st != Decay || slv != 31) {
      return MUTED;
    }
    var low, top := 0, 0x1F8;
    if st == Decay {
      var band := slv * 16;
      if lv >= band + 16 {
        low := band + 16;
      } else {
        top := band;
      }
    }
    var rc := StageByte(s.cache.r6w, st);
    if top > low {
      r := Record(low, top - low, rc, false, -1);
    } else {
      r := Record(0x200, 1, rc, false, -1);
    }
  }

  // ---------------- write application ----------------

  /** The slot re-evaluates the whole rule in its next sample. */
  function Force(s: OplSlot): OplSlot { s.(rec := s.rec.(span := 0, qm := false)) }

  method SetKey(s: OplSlot, k: bool) returns (r: OplSlot)
    requires RecordOk(s)
    ensures r.cache == s.cache.(key := k) && RecordOk(r) && Abs(r) == Abs(s) && r.P == s.P
    ensures if k == s.cache.key then r == s else r.rec.span == 0
  {
    r := s;
    if s.cache.key != k {
      r := Force(s.(cache := s.cache.(key := k)));
    }
  }

  /** The increment of each vibrato variant, from the F-number, block and MULT. */
  method SlotPg(r20: u8, v: OplView) returns (inc: seq<int>)
    requires v.Valid()
    ensures PhaseFits(inc, r20, v.Regs())
  {
    var a := if Bit(r20, 0x40) then v.fnum / 128 else 0;
    var d := [0, a / 4, a / 2, a, -(a / 4), -(a / 2), -a];
    assert d == Deviations(v.fnum, r20);
    inc := [];
    for i := 0 to 7
      invariant |inc| == i && forall j :: 0 <= j < i ==> inc[j] == ShiftedIncrement(v.fnum + d[j], v.blk, r20)
    {
      inc := inc + [ShiftedIncrement(v.fnum + d[i], v.blk, r20)];
    }
  }

  method SlotKsl(ta: int, o: Registers, v: OplView) returns (ta': int)
    requires v.Valid() && ta / 0x10000 == if Bit(o.r20, 0x80) then 0xFF else 0
    ensures LevelFits(ta', o.r20, o.r40, v.Regs())
  {
    ta' := ta / 0x10000 * 0x10000 + v.k6 * KSLMUL[o.r40 / 64] + o.r40 % 64 * 4;
  }

  /** Rate index per stage, four at once, SL's band and whether NTS matters. */
  method PackRates(o: Registers, v: OplView, nts: bool) returns (w: bv32, band: int, flips: bool)
    requires ViewOk(v.Regs())
    ensures RateFits(w, flips, band, o, v.Regs(), nts) && (0 <= band < 15 || band == 31)
  {
    var ksr := Bit(o.r20, 0x10);
    var ns := (if nts then v.fnum / 256 else v.fnum / 512) % 2;
    var ks := if ksr then 2 * v.blk + ns else v.blk / 2;
    var rr := o.r80 % 16;
    w := PackedWord(o.r60 / 16, o.r60 % 16, if Bit(o.r20, 0x20) then 0 else rr, rr, ks);
    assert w == RateWord(o, v.Regs(), nts);
    RateWordIsCached(o, v.Regs(), nts);
    band := if o.r80 / 16 == 15 then 31 else o.r80 / 16;
    flips := ksr && (v.fnum / 256) % 2 != (v.fnum / 512) % 2;
  }

  /** New rate indices and SL, and a new record when they moved. */
  method SlotEg(s: OplSlot, v: OplView, nts: bool) returns (r: OplSlot)
    requires v.Valid() && LevelOk(s) && RecordOk(s)
    ensures Abs(r) == Abs(s) && r.P == s.P && LevelOk(r) && RecordOk(r)
    ensures r.cache == s.cache.(r6w := r.cache.r6w, slv := r.cache.slv, nsx := r.cache.nsx)
    ensures RateFits(r.cache.r6w, r.cache.nsx, r.cache.slv, s.regs, v.Regs(), nts)
    ensures s.rec.span == 0 <==> r.rec.span == 0
  {
    hide StageByte, RateFits, RecordFits;
    var w, band, flips := PackRates(s.regs, v, nts);
    r := s.(cache := s.cache.(nsx := flips));
    if w != s.cache.r6w || band != s.cache.slv {
      r := r.(cache := r.cache.(r6w := w, slv := band));
      if s.rec.span != 0 {
        var rec := EgRec(r);
        r := r.(rec := rec);
      }
    }
  }

  /** Which parts of a slot's view changed. */
  datatype Change = Change(
    low: bool,   // F-number low bits, or any of high
    high: bool,  // the block or the F-number's top two bits
    key: bool)

  /** Caches that do not read what changed between two views are good for both. */
  lemma CachesMove(k: Cache, o: Registers, v: View, v': View, key: bool, nts: bool)
    requires Caches(k, o, v, key, nts) && ViewOk(v')
    ensures v'.fnum == v.fnum && v'.blk == v.blk ==> PhaseFits(k.inc, o.r20, v') && LevelFits(k.ta, o.r20, o.r40, v')
    ensures v'.fnum / 256 == v.fnum / 256 && v'.blk == v.blk ==> RateFits(k.r6w, k.nsx, k.slv, o, v', nts)
  {
    if v'.fnum == v.fnum && v'.blk == v.blk {
      assert IncrementTable(v', o.r20) == IncrementTable(v, o.r20);
      assert KslTl(o.r40, v') == KslTl(o.r40, v);
    }
    if v'.fnum / 256 == v.fnum / 256 && v'.blk == v.blk {
      assert v'.fnum / 512 == v.fnum / 512 by {
        assert v'.fnum / 512 == v'.fnum / 256 / 2 && v.fnum / 512 == v.fnum / 256 / 2;
      }
      assert KeyScale(o.r20, v', nts) == KeyScale(o.r20, v, nts);
      forall st: Stage ensures SlotIndex(o, v', nts, st) == SlotIndex(o, v, nts, st) {
      }
    }
  }

  /** A slot after a change of its view (opl_slot_view), its key first. */
  method Reviewed(s: OplSlot, v: OplView, what: Change, k: bool, nts: bool, ghost was: View) returns (r: OplSlot)
    requires v.Valid() && Cached(s, was, s.cache.key, nts) && (what.high ==> what.low)
    requires !what.key ==> k == s.cache.key
    requires !what.low ==> v.fnum == was.fnum && v.blk == was.blk
    requires !what.high ==> v.fnum / 256 == was.fnum / 256 && v.blk == was.blk
    ensures Abs(r) == Abs(s) && Cached(r, v.Regs(), k, nts)
    ensures k == s.cache.key && !what.low ==> r == s
  {
    hide StageByte, RateFits, PhaseFits, LevelFits, RecordFits;
    CachesMove(s.cache, s.regs, was, v.Regs(), s.cache.key, nts);
    TaHigh(s.cache, s.regs, was);
    r := s;
    if what.key {
      r := SetKey(r, k);
    }
    if what.low {
      var inc := SlotPg(r.regs.r20, v);
      var ta := SlotKsl(r.cache.ta, r.regs, v);
      r := r.(cache := r.cache.(inc := inc, ta := ta));
      if what.high {
        r := SlotEg(r, v, nts);
        SustainKept(s.cache, s.regs, was, nts);
        SustainKept(r.cache, s.regs, v.Regs(), nts);
      }
    }
  }

  lemma TaHigh(k: Cache, o: Registers, v: View)
    requires LevelFits(k.ta, o.r20, o.r40, v)
    ensures k.ta / 0x10000 == if Bit(o.r20, 0x80) then 0xFF else 0
  {
  }

  lemma AmSet(ta: int, o: Registers, d: u8, v: View)
    requires LevelFits(ta, o.r20, o.r40, v)
    ensures LevelFits(ta % 0x10000 + (if Bit(d, 0x80) then 0xFF0000 else 0), d, o.r40, v)
  {
  }

  /** 20-35: AM, VIB, EGT, KSR and MULT. */
  method Write20(s: OplSlot, d: u8, v: OplView, nts: bool) returns (r: OplSlot)
    requires v.Valid() && Cached(s, v.Regs(), s.cache.key, nts)
    ensures Abs(r) == Abs(s).(regs := s.regs.(r20 := d)) && Cached(r, v.Regs(), s.cache.key, nts)
  {
    hide StageByte, RateFits, PhaseFits, RecordFits, LevelFits, KslTl, Bit;
    var ta := s.cache.ta % 0x10000 + (if Bit(d, 0x80) then 0xFF0000 else 0);
    AmSet(s.cache.ta, s.regs, d, v.Regs());
    var inc := SlotPg(d, v);
    r := s.(regs := s.regs.(r20 := d), cache := s.cache.(ta := ta, inc := inc));
    r := SlotEg(r, v, nts);
    SustainKept(s.cache, s.regs, v.Regs(), nts);
    SustainKept(r.cache, r.regs, v.Regs(), nts);
  }

  /** 40-55: KSL and TL. */
  method Write40(s: OplSlot, d: u8, v: OplView, nts: bool) returns (r: OplSlot)
    requires v.Valid() && Cached(s, v.Regs(), s.cache.key, nts)
    ensures Abs(r) == Abs(s).(regs := s.regs.(r40 := d)) && Cached(r, v.Regs(), s.cache.key, nts)
  {
    hide StageByte, PhaseFits, RecordFits, LevelFits, SameIndex;
    TaHigh(s.cache, s.regs, v.Regs());
    r := s.(regs := s.regs.(r40 := d));
    var ta := SlotKsl(r.cache.ta, r.regs, v);
    r := r.(cache := r.cache.(ta := ta));
    SameRates(s.cache, s.regs, r.regs, v.Regs(), nts);
  }

  lemma SameRates(k: Cache, o: Registers, o': Registers, v: View, nts: bool)
    requires RateFits(k.r6w, k.nsx, k.slv, o, v, nts)
    requires o'.r20 == o.r20 && o'.r60 == o.r60 && o'.r80 == o.r80
    ensures RateFits(k.r6w, k.nsx, k.slv, o', v, nts)
  {
    forall st: Stage ensures SlotIndex(o', v, nts, st) == SlotIndex(o, v, nts, st) {
    }
  }

  /** 60-75: AR and DR. */
  method Write60(s: OplSlot, d: u8, v: OplView, nts: bool) returns (r: OplSlot)
    requires v.Valid() && Cached(s, v.Regs(), s.cache.key, nts)
    ensures Abs(r) == Abs(s).(regs := s.regs.(r60 := d)) && Cached(r, v.Regs(), s.cache.key, nts)
  {
    hide StageByte, RateFits, PhaseFits, RecordFits, LevelFits;
    r := SlotEg(s.(regs := s.regs.(r60 := d)), v, nts);
    SustainKept(s.cache, s.regs, v.Regs(), nts);
    SustainKept(r.cache, r.regs, v.Regs(), nts);
  }

  lemma SustainKept(k: Cache, o: Registers, v: View, nts: bool)
    requires RateFits(k.r6w, k.nsx, k.slv, o, v, nts)
    ensures k.slv == SustainBand(o.r80)
  {
  }

  /** 80-95: SL and RR. */
  method Write80(s: OplSlot, d: u8, v: OplView, nts: bool) returns (r: OplSlot)
    requires v.Valid() && Cached(s, v.Regs(), s.cache.key, nts)
    ensures Abs(r) == Abs(s).(regs := s.regs.(r80 := d)) && Cached(r, v.Regs(), s.cache.key, nts)
  {
    hide StageByte, RateFits, PhaseFits, RecordFits, LevelFits, DecayRecord;
    r := SlotEg(s.(regs := s.regs.(r80 := d)), v, nts);
    r := r.(cache := r.cache.(drec := DecayRecord(r.cache.slv)));
  }

  /** E0-F5: WS. */
  method WriteE0(s: OplSlot, d: u8, v: OplView, nts: bool) returns (r: OplSlot)
    requires v.Valid() && Cached(s, v.Regs(), s.cache.key, nts)
    ensures Abs(r) == Abs(s).(regs := s.regs.(ws := d % 4)) && Cached(r, v.Regs(), s.cache.key, nts)
  {
    hide StageByte, RecordFits, SameIndex;
    r := s.(regs := s.regs.(ws := d % 4), cache := s.cache.(wav := WAV[d % 4]));
    SameRates(s.cache, s.regs, r.regs, v.Regs(), nts);
  }

  /** NTS turned over: the rate indices it reaches flip in place, and the record with them. */
  function NtsFlip(s: OplSlot): OplSlot {
    if s.cache.nsx then
      s.(rec := s.rec.(rc := FlipLow(s.rec.rc)), cache := s.cache.(r6w := FlipBytes(s.cache.r6w)))
    else s
  }

  lemma NtsFlipIs(s: OplSlot, v: View, k: bool, nts: bool)
    requires Cached(s, v, k, nts)
    ensures Cached(NtsFlip(s), v, k, !nts) && Abs(NtsFlip(s)) == Abs(s)
    ensures Settled(s) ==> Settled(NtsFlip(s))
  {
    hide StageByte, RatesCached, PhaseFits, LevelFits, RecordFits, FlipBytes, FlipLow;
    NtsFlipKeepsRates(s.cache.r6w, s.regs, v, nts);
    if s.cache.nsx && s.rec.span != 0 {
      FlipRecord(s.level, s.stage, s.rec, s.cache.r6w, s.cache.slv);
    }
  }

  lemma FlipRecord(level: int, stage: Stage, r: Record, r6w: bv32, slv: int)
    requires RecordFits(level, stage, r, r6w, slv)
    ensures RecordFits(level, stage, r.(rc := FlipLow(r.rc)), FlipBytes(r6w), slv)
  {
    hide StageByte, FlipBytes;
    StageByteFlips(r6w, stage);
  }

  /** One write to an operator's registers. */
  method Rewritten(s: OplSlot, reg: u8, d: u8, v: OplView, nts: bool, wse: bool, ghost k: bool) returns (r: OplSlot)
    requires v.Valid() && Cached(s, v.Regs(), k, nts) && (0x20 <= reg < 0xA0 || 0xE0 <= reg)
    ensures Abs(r) == Abs(s).(regs := WriteRegisters(s.regs, reg, d, wse)) && Cached(r, v.Regs(), k, nts)
  {
    hide RecordOk, PhaseFits, LevelFits, RateFits, SelfFits;
    if reg < 0x40 {
      r := Write20(s, d, v, nts);
    } else if reg < 0x60 {
      r := Write40(s, d, v, nts);
    } else if reg < 0x80 {
      r := Write60(s, d, v, nts);
    } else if reg < 0xA0 {
      r := Write80(s, d, v, nts);
    } else if wse {
      r := WriteE0(s, d, v, nts);
    } else {
      r := s;
    }
  }

  const NO_RECORD: Record := Record(0, 0, 0, false, 0)

  const NO_CACHE: Cache := Cache(false, 0, 0, [], 0, 0, 0, false)

  const NO_SLOT: OplSlot := OplSlot(0, 0, Attack, NO_RECORD, NO_CACHE, Registers(0, 0, 0, 0, 0))

  const NO_VIEW: OplView := OplView(0, 0, false, false, 0, 0)

  /** A slot as reset and load leave it: registers, phase, level and stage, and no cache. */
  predicate Raw(s: OplSlot, o: Slot) {
    Abs(s) == o && PhaseOk(s.P) && s.rec == NO_RECORD && s.cache == NO_CACHE
  }

  /** What a rebuild leaves of a slot: every cache right, and a record for its stage and level, whether
      or not the key agrees with the stage. */
  ghost predicate Refilled(s: OplSlot, o: Slot, v: View, k: bool, nts: bool) {
    && Abs(s) == o && PhaseOk(s.P) && LevelOk(s) && Caches(s.cache, s.regs, v, k, nts)
    && s.rec.span != 0 && RecordFits(s.level, s.stage, s.rec, s.cache.r6w, s.cache.slv)
  }

  /** Every cache of a slot from its registers, its view and its key. */
  method Rebuilt(s: OplSlot, ghost o: Slot, v: OplView, k: bool, nts: bool) returns (r: OplSlot)
    requires Raw(s, o) && SlotOk(o) && v.Valid()
    ensures Refilled(r, o, v.Regs(), k, nts)
    ensures (k <==> o.stage != Release) ==> Is(r, o, v.Regs(), k, nts) && Settled(r)
  {
    hide StageByte, RateFits, PhaseFits, LevelFits, RecordFits;
    r := s.(cache := s.cache.(key := k, ta := if Bit(s.regs.r20, 0x80) then 0xFF0000 else 0, wav := WAV[s.regs.ws]));
    var inc := SlotPg(s.regs.r20, v);
    var ta := SlotKsl(r.cache.ta, s.regs, v);
    r := r.(cache := r.cache.(inc := inc, ta := ta));
    r := SlotEg(r, v, nts);
    r := r.(cache := r.cache.(drec := DecayRecord(r.cache.slv)));
    var rec := EgRec(r);
    r := r.(rec := rec);
  }
}
