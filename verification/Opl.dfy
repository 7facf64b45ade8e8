/** The OPL2 engine of src/core/aud/opl.c: registers, caches and counters updated in place by
    every write and every sample, proved against the specification chip of OplSpec. */
module OplEngine {
  import opened Common
  import opened OplSpec
  import opened OplCaches
  import opened OplSlotModel
  import opened OplRules
  import opened OplRuns
  import opened OplSave

  class Opl {
    const rom: seq<int>
    const sl: array<OplSlot>
    const step: array<int>   // bytes [r6]: linear step, [ATTK + r6]: attack multiplier
    const ch: array<OplChan>
    const cv: array<OplView> // carrier view
    const mv: array<OplView> // modulator view
    var rlw: seq<int>        // the words of the table that are not 0, below rate 48
    var lag: seq<bool>       // whose view, or whose FB from channel 3 on, has yet to follow
    var v0fix: int           // the position slot 0 still uses when a write has just zeroed vib
    var test: u8
    var nts: bool
    var bd: u8
    var rhy: bool
    var dam: bool
    var dvb: bool
    var vib: int
    var tdir: bool
    var tof: bool
    var tstep: bool
    var sub: bool
    var carry: bool
    var egshift: int
    var eglow: int
    var cb: int              // the two latched cymbal bits, in place
    var credit: int
    var lfo: int
    var tv: int
    var T: int
    var N: bv32
    var held15: int
    var held1617: int
    var queue: seq<Write>
    var drops: int
    var xaddr: int           // where its 256 bytes start in XRAM, PARKED when parked
    ghost var m: Machine     // what the engine stands for

    // ---------------- the step table ----------------

    /** The words of section 3.3 for this sample. */
    method StepTable()
      requires step.Length == 36 && TableIdle(step[..], rlw, sub) && 0 <= egshift <= 13 && 0 <= eglow < 4
      modifies step, this`rlw
      ensures TableOk(step[..], Timer(sub, egshift, eglow))
      ensures TableIdle(step[..], rlw, !sub)
    {
      ghost var t := Timer(sub, egshift, eglow);
      ghost var was := step[..];
      if sub {
        SetLowWords(was, rlw, t);
        var x := RLW[egshift];
        step[x[0]], step[18 + x[0]] := 0x01010101, 0x02020202;
        step[x[1]], step[18 + x[1]] := 0x01010000, 0x02020000;
        step[x[2]], step[18 + x[2]] := 0x01000100, 0x02000200;
        step[17], step[35] := 0, 0;
        assert step[..] == SetLow(was, x);
        rlw := x;
      } else {
        ClearLowWords(was, rlw);
        step[rlw[0]], step[18 + rlw[0]] := 0, 0;
        step[rlw[1]], step[18 + rlw[1]] := 0, 0;
        step[rlw[2]], step[18 + rlw[2]] := 0, 0;
        assert step[..] == ClearLow(was, rlw);
      }
      HighWords(t);
    }

    method HighWords(ghost t: Timer)
      requires t == Timer(sub, egshift, eglow) && TimerOk(t) && step.Length == 36
      requires forall j :: 0 <= j < 12 ==> WordIs(step[..], j, LowWord(j, t))
      requires WordIs(step[..], 16, 0) && TableIdle(step[..], rlw, !sub)
      modifies step
      ensures TableOk(step[..], t) && TableIdle(step[..], rlw, !sub)
    {
      ghost var low := step[..];
      var row := HIROW[if sub then 1 else 0][eglow];
      for j := 0 to 4
        invariant forall k :: 0 <= k < 36 && !(12 <= k < 12 + j) && !(30 <= k < 30 + j) ==> step[k] == low[k]
        invariant forall k :: 0 <= k < j ==> step[30 + k] == row[k] && step[12 + k] == row[k] / 2
      {
        step[30 + j] := row[j];
        step[12 + j] := row[j] / 2;
      }
      assert forall j, w :: LowIndex(j) && WordIs(low, j, w) ==> WordIs(step[..], j, w);
      TableFromWords(step[..], t);
    }

    // ---------------- envelopes ----------------

    /** OPL_STEP: byte i of the step table. */
    function StepByte(i: int): int
      requires 0 <= i < 4 * step.Length
      reads step
    {
      TableByte(step[..], i)
    }

    /** A forced slot, its registers or key just changed, runs section 3.4 in full once. */
    method EgForced(s0: OplSlot, inc: int, ghost t: Timer) returns (s: OplSlot)
      requires LevelOk(s0) && s0.rec.span == 0 && !s0.rec.qm && IndicesOk(s0.cache.r6w) && |s0.cache.inc| == 7
      requires step.Length == 36 && TableOk(step[..], t) && 0 <= v0fix < 8
      requires v0fix != 0 ==> (s0.cache.key <==> s0.stage != Release)
      modifies this`v0fix
      ensures v0fix == 0 && s.cache == s0.cache && s.regs == s0.regs
      ensures s.P == EventPhase(s0, inc, old(v0fix), dvb)
      ensures s.rec.span == 2 ==>
                && s.level == s0.level && s.stage == s0.stage && s.rec.mute == -1 && !s.rec.qm
                && (s.cache.key <==> s.stage != Release) && Leaves(s.level, s.stage, s.cache.slv)
      ensures s.rec.span != 2 ==> Stepped(s, Rule(s0, t))
    {
      hide StageByte, IndexRule, RecordFits, TableOk, TableByte, Leaves, Variant;
      s := s0;
      if v0fix != 0 {
        s := s.(P := (s.P + s.cache.inc[Variant(dvb, v0fix)] - inc) % WORD);
        v0fix := 0;
      }
      var st, k, lv := s.stage, s.cache.key, s.level;
      if st == Release && k {
        s := EgKeyOn(s, inc, t);
      } else if st != Release && !k {
        s := EgKeyOff(s, t);
      } else {
        var rec := EgRec(s);
        s := s.(rec := rec);
        if InRecord(lv, rec) {
          RecordStep(lv, st, rec, s.cache.r6w, s.cache.slv, k, t, step[..]);
          s := s.(level := lv + TableStep(lv, rec.rc, StepByte(rec.rc)));
        } else {
          RecordLeave(lv, st, rec, s.cache.r6w, s.cache.slv, k, t);
          s := s.(rec := rec.(span := 2));
        }
      }
    }

    /** A key pressed: the phase starts over and the level stays where it is, for the attack to begin from. */
    method EgKeyOn(s0: OplSlot, inc: int, ghost t: Timer) returns (s: OplSlot)
      requires LevelOk(s0) && s0.stage == Release && s0.cache.key && IndicesOk(s0.cache.r6w)
      ensures s.P == inc && s.cache == s0.cache && s.regs == s0.regs
      ensures s.rec.span != 2 && Stepped(s, Rule(s0, t))
    {
      hide StageByte, IndexRule, RecordFits;
      KeyOnRule(s0.level, s0.cache.slv, s0.cache.r6w, t);
      s := s0;
      if 60 <= StageByte(s.cache.r6w, Attack) < 64 {
        s := s.(level := 0);
      }
      s := s.(stage := Attack, P := inc);
      var rec := EgRec(s);
      s := s.(rec := rec);
    }

    /** A key let go: the stage that ends still has this step. */
    method EgKeyOff(s0: OplSlot, ghost t: Timer) returns (s: OplSlot)
      requires LevelOk(s0) && s0.stage != Release && !s0.cache.key && IndicesOk(s0.cache.r6w)
      requires TableOk(step[..], t)
      ensures s.P == s0.P && s.cache == s0.cache && s.regs == s0.regs
      ensures s.rec.span != 2 && Stepped(s, Rule(s0, t))
    {
      hide StageByte, IndexRule, IndexStep, TableByte;
      var st, lv := s0.stage, s0.level;
      var mute := -1;
      s := s0;
      KeyOffRule(lv, st, s.cache.slv, s.cache.r6w, t);
      if st != Attack {
        if lv >= 0x1F8 {
          s := s.(level := 0x1FF);
          mute := 0;
        } else if st == Sustain || lv / 16 != s.cache.slv {
          var i := StageByte(s.cache.r6w, st);
          assert StepByte(i) == LINEAR[IndexStep(i, t)];
          s := s.(level := lv + StepByte(i));
        }
      }
      s := s.(stage := Release);
      var rec := EgRec(s);
      if rec.mute != mute {
        rec := rec.(lo := 0x200); // still heard now, and silent in every later sample
      }
      s := s.(rec := rec.(mute := mute));
    }

    /** The level left its range, or span 0 (opl_eg_event). */
    method EgEvent(s0: OplSlot, inc: int, ghost t: Timer) returns (s: OplSlot)
      requires LevelOk(s0) && RecordOk(s0) && IndicesOk(s0.cache.r6w) && |s0.cache.inc| == 7
      requires s0.cache.drec == DecayRecord(s0.cache.slv)
      requires !InRecord(s0.level, s0.rec)
      requires step.Length == 36 && TableOk(step[..], t) && 0 <= v0fix < 8
      requires v0fix != 0 ==> s0.rec.span == 0 && (s0.cache.key <==> s0.stage != Release)
      modifies this`v0fix
      ensures v0fix == 0 && s.cache == s0.cache && s.regs == s0.regs
      ensures s.P == EventPhase(s0, inc, old(v0fix), dvb)
      ensures Stepped(s, Rule(s0, t))
    {
      hide StageByte, IndexRule, TableOk, TableByte, Variant;
      s := s0;
      if s.rec.span == 0 {
        s := EgForced(s, inc, t);
        if s.rec.span != 2 {
          return;
        }
      } else {
        RecordLeave(s.level, s.stage, s.rec, s.cache.r6w, s.cache.slv, s.cache.key, t);
      }
      LeaveRule(s.level, s.stage, s.cache.slv, s.cache.key, s.cache.r6w, t);
      var st, lv := s.stage, s.level;
      if st == Attack {
        s := s.(stage := Decay, rec := s.rec.(lo := s.cache.drec % 0x10000, span := s.cache.drec / 0x10000,
                                              rc := StageByte(s.cache.r6w, Decay)));
        return;
      }
      if st == Decay && lv / 16 == s.cache.slv {
        s := s.(stage := Sustain);
        if lv < 0x1F8 {
          s := s.(rec := s.rec.(lo := 0, span := 0x1F8, rc := StageByte(s.cache.r6w, Sustain)));
          return;
        }
      }
      s := EgMuted(s);
    }

    // ---------------- per-sample kernels ----------------

    /** The attenuation from the level before, then one step, stage change or re-evaluation. */
    method Eg(s0: OplSlot, amv: int, inc: int, ghost t: Timer) returns (s: OplSlot, eo: int)
      requires LevelOk(s0) && RecordOk(s0) && IndicesOk(s0.cache.r6w) && |s0.cache.inc| == 7
      requires s0.cache.drec == DecayRecord(s0.cache.slv)
      requires step.Length == 36 && TableOk(step[..], t) && 0 <= v0fix < 8
      requires v0fix != 0 ==> s0.rec.span == 0 && (s0.cache.key <==> s0.stage != Release)
      modifies this`v0fix
      ensures v0fix == 0 && s.cache == s0.cache && s.regs == s0.regs
      ensures s.P == EventPhase(s0, inc, old(v0fix), dvb)
      ensures Stepped(s, Rule(s0, t))
      ensures eo == LevelTerm(s0.level, s0.cache.ta, amv)
    {
      hide StageByte, IndexRule, TableOk, TableByte, RecordFits, Variant;
      s := s0;
      var e := s.level;
      var a := e + s.cache.ta % 0x10000 + (if s.cache.ta / 0x10000 == 0 then 0 else amv % 256);
      eo := if a > 0x1FF then 0x1FF else a;
      if InRecord(e, s.rec) {
        RecordStep(e, s.stage, s.rec, s.cache.r6w, s.cache.slv, s.cache.key, t, step[..]);
        s := s.(level := e + TableStep(e, s.rec.rc, StepByte(s.rec.rc)));
      } else if s.rec.span != 0 {
        s := EgLeave(s, t);
      } else {
        s := EgEvent(s, inc, t);
      }
    }

    /** A slot that has left its record: the level holds while the stage moves on. */
    method EgLeave(s0: OplSlot, ghost t: Timer) returns (s: OplSlot)
      requires LevelOk(s0) && Settled(s0) && s0.cache.drec == DecayRecord(s0.cache.slv)
      requires !InRecord(s0.level, s0.rec)
      ensures s.P == s0.P && s.cache == s0.cache && s.regs == s0.regs
      ensures Stepped(s, Rule(s0, t))
    {
      hide StageByte, IndexRule;
      s := s0;
      var st, e := s.stage, s.level;
      RecordLeave(e, st, s.rec, s.cache.r6w, s.cache.slv, s.cache.key, t);
      LeaveRule(e, st, s.cache.slv, s.cache.key, s.cache.r6w, t);
      if st == Attack {
        s := s.(stage := Decay, rec := s.rec.(lo := s.cache.drec % 0x10000, span := s.cache.drec / 0x10000,
                                              rc := StageByte(s.cache.r6w, Decay)));
      } else if st == Decay && e / 16 == s.cache.slv && e < 0x1F8 {
        s := s.(stage := Sustain, rec := s.rec.(lo := 0, span := 0x1F8, rc := StageByte(s.cache.r6w, Sustain)));
      } else {
        if st == Decay && e / 16 == s.cache.slv {
          s := s.(stage := Sustain);
        }
        s := EgMuted(s);
      }
    }

    /** What any slot of a sample reads of the engine. */
    ghost predicate SampleOk(x: Around, amv: int)
      reads this, step
    {
      step.Length == 36 && SampleFits(rom, step[..], dvb, x, amv) && 0 <= v0fix < 8
    }

    /** Slot s through this sample: its phase moves by variant vi, then its envelope runs (section 3 for
        its attenuation, level, stage and mute, section 2 for its phase). p is the phase its operator
        reads, eo its attenuation. */
    method Run(s0: OplSlot, amv: int, vi: int, ghost o: Slot, ghost x: Around) returns (s: OplSlot, p: int, eo: int)
      requires SampleOk(x, amv) && SlotOk(o) && Is(s0, o, x.view, x.key, x.nts) && 0 <= vi < 7
      requires VariantReady(s0, x, v0fix, dvb, vi)
      modifies this`v0fix
      ensures After(s, o, x) && v0fix == 0 && s.cache == s0.cache
      ensures p == Phase10(o) && eo == Attenuation(o, x)
      ensures s.rec.mute == if SlotEnvelope(o, x).mute then 0 else -1
    {
      hide StageByte, IndexRule, TableOk, RecordFits, PhaseFits, LevelFits, RateFits;
      hide SlotEnvelope, StepSlot, Attenuation, IncrementTable, Variant, KslTl, LevelTerm;
      SlotBasics(s0, o, x);
      SlotReady(s0, o, x, vi);
      ghost var fix := v0fix;
      var inc := s0.cache.inc[vi];
      p := PhaseTop(s0.P);
      s := s0.(P := AddPhase(s0.P, inc));
      s, eo := Eg(s, amv, inc, x.timer);
      PhaseRule(o, x, vi, fix, s.P);
      StepIs(o, x, s.P / 8192, s.level, s.stage);
    }

    /** What the kernels of a modulator and carrier pair need. */
    ghost predicate PairReady(m: OplSlot, k: OplSlot, h: OplChan, amv: int, vi: int,
                              om: Slot, xm: Around, ok: Slot, xk: Around, hist: History)
      reads this, step
    {
      && SampleOk(xm, amv) && SampleOk(xk, amv) && SlotOk(om) && SlotOk(ok)
      && Is(m, om, xm.view, xm.key, xm.nts) && Is(k, ok, xk.view, xk.key, xk.nts) && ChanIs(h, hist, xm.view)
      && 0 <= vi < 7 && vi == Variant(dvb, xk.vib) && VariantReady(m, xm, v0fix, dvb, vi)
    }

    /** A pair muted at its fixed points: only the phases and the history move. */
    method PairMuted(m0: OplSlot, k0: OplSlot, h0: OplChan, ghost amv: int, vi: int, ghost om: Slot, ghost xm: Around,
                     ghost ok: Slot, ghost xk: Around, ghost hist: History)
      returns (m: OplSlot, k: OplSlot, h: OplChan)
      requires PairReady(m0, k0, h0, amv, vi, om, xm, ok, xk, hist) && m0.rec.qm && k0.rec.qm
      ensures After(m, om, xm) && After(k, ok, xk)
      ensures ChanIs(h, History(ModulatorOut(rom, om, xm, hist), hist.h1), xm.view)
      ensures SlotEnvelope(om, xm).mute && SlotEnvelope(ok, xk).mute && v0fix == 0
    {
      hide StageByte, IndexRule, TableOk, RecordFits, PhaseFits, LevelFits, RateFits, SelfFits;
      hide SlotEnvelope, StepSlot, Attenuation, IncrementTable, Variant, ModulatorOut, CarrierOut, OpValue, KslTl;
      hide NewOutput, OldOutput, FeedbackTop, AddPhase, PhaseTop, Phase10, PackHistory, Bit, RomOk, SlotOk;
      SlotBasics(m0, om, xm);
      SlotBasics(k0, ok, xk);
      var pm, pk := m0.P, k0.P;
      m := m0.(P := AddPhase(pm, m0.cache.inc[vi]));
      k := k0.(P := AddPhase(pk, k0.cache.inc[vi]));
      var h1 := NewOutput(h0.hist);
      var fb := FeedbackTop(h1 + OldOutput(h0.hist), h0.fbl);
      MutedSlot(m0, om, xm, vi, m.P);
      MutedSlot(k0, ok, xk, vi, k.P);
      ModulatorValue(rom, om, xm, hist, h0.hist, h0.fbl);
      SilentValue(rom, om.regs.ws, PhaseTop(pm) + fb);
      var mo := if m.cache.wav == 0x80000000 && Bit((PhaseTop(pm) + fb) % 1024, 0x200) then -1 else 0;
      HistoryRoundTrip(mo, h1);
      h := h0.(hist := PackHistory(mo, h1));
    }

    /** The full kernel of a pair: the raw outputs of modulator and carrier. */
    method Pair(m0: OplSlot, k0: OplSlot, h0: OplChan, amv: int, vi: int, ghost om: Slot, ghost xm: Around,
                ghost ok: Slot, ghost xk: Around, ghost hist: History)
      returns (m: OplSlot, k: OplSlot, h: OplChan, mo: int, ko: int)
      requires PairReady(m0, k0, h0, amv, vi, om, xm, ok, xk, hist)
      modifies this`v0fix
      ensures After(m, om, xm) && After(k, ok, xk) && v0fix == 0
      ensures ChanIs(h, History(mo, hist.h1), xm.view) && h.incl == h0.incl
      ensures mo == ModulatorOut(rom, om, xm, hist)
      ensures ko == CarrierOut(rom, ok, xk, xm.view.con, mo)
      ensures m.rec.mute == (if SlotEnvelope(om, xm).mute then 0 else -1)
      ensures k.rec.mute == (if SlotEnvelope(ok, xk).mute then 0 else -1)
    {
      hide StageByte, IndexRule, TableOk, RecordFits, PhaseFits, LevelFits, RateFits, SelfFits;
      hide SlotEnvelope, StepSlot, Attenuation, IncrementTable, ModulatorOut, CarrierOut, OpValue, KslTl, Variant;
      hide NewOutput, OldOutput, FeedbackTop, Phase10;
      SlotBasics(m0, om, xm);
      SlotBasics(k0, ok, xk);
      ModulatorValue(rom, om, xm, hist, h0.hist, h0.fbl);
      var h1 := NewOutput(h0.hist);
      var fb := FeedbackTop(h1 + OldOutput(h0.hist), h0.fbl);
      var pm, em, pk, ek;
      m, pm, em := Run(m0, amv, vi, om, xm);
      mo := OpValue(rom, m.cache.wav, pm + fb, em);
      HistoryRoundTrip(mo, h1);
      h := h0.(hist := PackHistory(mo, h1));
      k, pk, ek := Run(k0, amv, vi, ok, xk);
      ko := OpValue(rom, k.cache.wav, pk + (if h.incl == -1 then 0 else mo), ek);
      CarrierValue(rom, ok, xk, xm.view.con, mo);
    }

    ghost predicate Sized() {
      sl.Length == 18 && ch.Length == 9 && step.Length == 36 && cv.Length == 9 && mv.Length == 9 && cv != mv
        && RomOk(rom)
    }

    /** What the kernels of a sample of chip c need: the step table, the tremolo value and the
        vibrato variant of every slot but slot 0. */
    ghost predicate Sampling(c: Chip, amv: int, vi: int)
      reads this, step
    {
      && WellFormed(c) && Sized() && TableOk(step[..], TimerOf(c.cnt)) && amv == Tremolo(c) && dvb == Dvb(c.bd)
      && vi == Variant(dvb, VibAt(c, 1))
      && 0 <= v0fix < 8
    }

    /** Slot 0 has its own vibrato position when test bit 7 has just risen. */
    ghost predicate FirstReady(c: Chip, vi: int)
      requires WellFormed(c) && Sized()
      reads this, sl
    {
      VariantReady(sl[0], AroundAt(c, 0), v0fix, dvb, vi)
    }

    /** A channel that is no drum: what its two operators add to the mix, modulator first. */
    method Chan(n: int, amv: int, vi: int, ghost c: Chip) returns (add: int, car: int)
      requires WellFormed(c) && RomOk(rom) && 0 <= n < 9 && Sampling(c, amv, vi) && (Rhythm(c.bd) ==> n < 7)
      requires if n == 0 then FirstReady(c, vi) else v0fix == 0
      requires Holds(sl[ModSlot(n)], c, ModSlot(n)) && Holds(sl[ModSlot(n) + 3], c, ModSlot(n) + 3)
      requires ChanHolds(ch[n], c, n)
      modifies this`v0fix, sl, ch
      ensures v0fix == 0 && Passed(sl[ModSlot(n)], c, ModSlot(n)) && Passed(sl[ModSlot(n) + 3], c, ModSlot(n) + 3)
      ensures ChanPassed(ch[n], c, rom, n)
      ensures forall i :: 0 <= i < 18 && i != ModSlot(n) && i != ModSlot(n) + 3 ==> sl[i] == old(sl[i])
      ensures forall i :: 0 <= i < 9 && i != n ==> ch[i] == old(ch[i])
      ensures add == ModMix(c, rom, n) && car == CarMix(c, rom, n)
    {
      hide SlotEnvelope, StepSlot, ModulatorOut, CarrierOut, UnpackHistory, Is, ChanIs, AroundOk, SampleFits, Tremolo;
      hide Key, Rhythm, ModSlot, Variant;
      var i := ModSlot(n);
      var m, k, h := sl[i], sl[i + 3], ch[n];
      ghost var om, ok, xm, xk := c.slots[i], c.slots[i + 3], AroundAt(c, i), AroundAt(c, i + 3);
      PairAt(n, amv, vi, c);
      hide WellFormed, RomOk, VibAt;
      if m.rec.qm && k.rec.qm {
        m, k, h := PairMuted(m, k, h, amv, vi, om, xm, ok, xk, c.hist[n]);
        add, car := 0, 0;
      } else {
        var mo, ko;
        m, k, h, mo, ko := Pair(m, k, h, amv, vi, om, xm, ok, xk, c.hist[n]);
        car := Mask(ko, k.rec.mute);
        add := Mask(Mask(mo, m.rec.mute), h.incl);
      }
      sl[i], sl[i + 3], ch[n] := m, k, h;
    }

    lemma PairAt(n: int, amv: int, vi: int, c: Chip)
      requires WellFormed(c) && RomOk(rom) && 0 <= n < 9 && Sampling(c, amv, vi)
      requires if n == 0 then FirstReady(c, vi) else v0fix == 0
      requires Holds(sl[ModSlot(n)], c, ModSlot(n)) && Holds(sl[ModSlot(n) + 3], c, ModSlot(n) + 3)
      requires ChanHolds(ch[n], c, n)
      ensures var i := ModSlot(n);
        PairReady(sl[i], sl[i + 3], ch[n], amv, vi, c.slots[i], AroundAt(c, i), c.slots[i + 3], AroundAt(c, i + 3),
          c.hist[n])
      ensures AroundAt(c, ModSlot(n)).view == c.mv[n]
      ensures ch[n].incl == if c.mv[n].con then -1 else 0
    {
      hide UnpackHistory, Variant, TableOk, Tremolo, Key, SlotOk, ModSlot, ViewOk, TimerOk, IsModulator, ChannelOf;
      hide RomOk, Dvb;
      hide StageByte, RecordFits, Cached;
      var i := ModSlot(n);
      FirstSlot(n);
      assert SlotOk(c.slots[i]) && SlotOk(c.slots[i + 3]);
      assert vi == Variant(dvb, AroundAt(c, i + 3).vib);
      assert VariantReady(sl[i], AroundAt(c, i), v0fix, dvb, vi);
      assert AroundOk(AroundAt(c, i)) && AroundOk(AroundAt(c, i + 3));
      assert SampleFits(rom, step[..], dvb, AroundAt(c, i), amv)
        && SampleFits(rom, step[..], dvb, AroundAt(c, i + 3), amv);
    }

    /** One drum voice of slot i, whose operator reads a phase of its own making. */
    method Drum(i: int, amv: int, vi: int, ghost c: Chip) returns (p: int, e: int)
      requires WellFormed(c) && RomOk(rom) && 12 <= i < 18 && Sampling(c, amv, vi) && v0fix == 0 && Holds(sl[i], c, i)
      modifies this`v0fix, sl
      ensures v0fix == 0 && Passed(sl[i], c, i)
      ensures forall j :: 0 <= j < 18 && j != i ==> sl[j] == old(sl[j])
      ensures p == Phase10(c.slots[i]) && 0 <= e <= 0x1FF && sl[i].cache.wav in WAV
      ensures forall q ::
        Mask(OpValue(rom, sl[i].cache.wav, q, e), sl[i].rec.mute) == Mixed(c, i, OutputAt(c, rom, i, q))
    {
      hide SlotEnvelope, StepSlot, Variant, SlotOk, TableOk, Tremolo, Key, Operator, OpValue, Attenuation;
      hide RecordFits, PhaseFits, LevelFits, RateFits, StageByte;
      ghost var o, x := c.slots[i], AroundAt(c, i);
      var s;
      SlotBasics(sl[i], o, x);
      s, p, e := Run(sl[i], amv, vi, o, x);
      sl[i] := s;
      forall q ensures OpValue(rom, s.cache.wav, q, e) == Operator(rom, q, o.regs.ws, e) {
        OpValueIsOperator(rom, o.regs.ws, q, e);
      }
    }

    method BassDrum(amv: int, vi: int, ghost c: Chip)
      requires WellFormed(c) && RomOk(rom) && Sampling(c, amv, vi) && v0fix == 0
      requires Holds(sl[12], c, 12) && Holds(sl[15], c, 15) && ChanHolds(ch[6], c, 6)
      modifies this`v0fix, this`held15, sl, ch
      ensures v0fix == 0 && Passed(sl[12], c, 12) && Passed(sl[15], c, 15) && ChanPassed(ch[6], c, rom, 6)
      ensures forall i :: 0 <= i < 18 && i != 12 && i != 15 ==> sl[i] == old(sl[i])
      ensures forall i :: 0 <= i < 9 && i != 6 ==> ch[i] == old(ch[i])
      ensures held15 == 2 * CarMix(c, rom, 6)
    {
      hide SlotEnvelope, StepSlot, ModulatorOut, CarrierOut, UnpackHistory, Is, ChanIs, AroundOk, SampleFits, Tremolo;
      hide Key, Rhythm, Variant;
      PairAt(6, amv, vi, c);
      hide WellFormed, RomOk, VibAt;
      var m, k, h, mo, ko := Pair(sl[12], sl[15], ch[6], amv, vi, c.slots[12], AroundAt(c, 12),
                                  c.slots[15], AroundAt(c, 15), c.hist[6]);
      held15 := 2 * Mask(ko, k.rec.mute);
      sl[12], sl[15], ch[6] := m, k, h;
    }

    /** What a drum voice of chip c needs of slot i, and of no other. */
    ghost predicate DrumReady(c: Chip, i: int, amv: int, vi: int)
      reads this, step, sl
    {
      Sampling(c, amv, vi) && v0fix == 0 && 12 <= i < 18 && Holds(sl[i], c, i)
    }

    /** Slot 13 at the hi-hat's phase; hb is its own, for the snare and the cymbal. */
    method Hihat(amv: int, vi: int, ghost c: Chip) returns (hb: int, v: int)
      requires WellFormed(c) && RomOk(rom) && DrumReady(c, 13, amv, vi)
      requires Bit(cb, 8) == c.c3 && Bit(cb, 32) == c.c5 && N == c.cnt.N
      modifies this`v0fix, sl
      ensures v0fix == 0 && Passed(sl[13], c, 13) && hb == Phase10(c.slots[13]) && v == HihatMix(c, rom)
      ensures forall j :: 0 <= j < 18 && j != 13 ==> sl[j] == old(sl[j])
    {
      hide OpValue, Holds, Passed, WellFormed, RomOk, Mixed, OutputAt, Bit, Phase10;
      var e;
      hb, e := Drum(13, amv, vi, c);
      var rm := Bit(hb, 4) != Bit(hb, 128) || Bit(hb, 8) != Bit(cb, 32) || Bit(cb, 8) != Bit(cb, 32);
      var hp := (if rm then 512 else 0) + (if rm != ((N >> 9) & 1 == 1) then 0xD0 else 0x34);
      v := Mask(OpValue(rom, sl[13].cache.wav, hp, e), sl[13].rec.mute);
    }

    method Snare(amv: int, vi: int, hb: int, ghost c: Chip) returns (v: int)
      requires WellFormed(c) && RomOk(rom) && DrumReady(c, 16, amv, vi) && hb == Phase10(c.slots[13]) && N == c.cnt.N
      modifies this`v0fix, sl
      ensures v0fix == 0 && Passed(sl[16], c, 16) && v == SnareMix(c, rom)
      ensures forall j :: 0 <= j < 18 && j != 16 ==> sl[j] == old(sl[j])
    {
      hide OpValue, Holds, Passed, WellFormed, RomOk, Mixed, OutputAt, Bit, Phase10;
      var p, e := Drum(16, amv, vi, c);
      var h8 := Bit(hb, 256);
      var sp := (if h8 then 512 else 0) + (if h8 != ((N >> 6) & 1 == 1) then 256 else 0);
      v := Mask(OpValue(rom, sl[16].cache.wav, sp, e), sl[16].rec.mute);
    }

    method Tom(amv: int, vi: int, ghost c: Chip) returns (v: int)
      requires WellFormed(c) && RomOk(rom) && DrumReady(c, 14, amv, vi)
      modifies this`v0fix, sl
      ensures v0fix == 0 && Passed(sl[14], c, 14) && v == TomMix(c, rom)
      ensures forall j :: 0 <= j < 18 && j != 14 ==> sl[j] == old(sl[j])
    {
      hide OpValue, Holds, Passed, WellFormed, RomOk, Mixed, OutputAt, Phase10;
      var p, e := Drum(14, amv, vi, c);
      v := Mask(OpValue(rom, sl[14].cache.wav, p, e), sl[14].rec.mute);
    }

    /** Slot 17, whose phase leaves its cymbal bits for the next hi-hat. */
    method Cymbal(amv: int, vi: int, hb: int, ghost c: Chip) returns (v: int)
      requires WellFormed(c) && RomOk(rom) && DrumReady(c, 17, amv, vi) && hb == Phase10(c.slots[13])
      modifies this`v0fix, this`cb, sl
      ensures v0fix == 0 && Passed(sl[17], c, 17) && v == CymbalMix(c, rom) && cb == CymbalBits(Phase10(c.slots[17]))
      ensures forall j :: 0 <= j < 18 && j != 17 ==> sl[j] == old(sl[j])
    {
      hide OpValue, Holds, Passed, WellFormed, RomOk, Mixed, OutputAt, Bit, Phase10, CymbalBits;
      var p, e := Drum(17, amv, vi, c);
      cb := CymbalBits(p);
      var rm := Bit(hb, 4) != Bit(hb, 128) || Bit(hb, 8) != Bit(p, 32) || Bit(p, 8) != Bit(p, 32);
      v := Mask(OpValue(rom, sl[17].cache.wav, (if rm then 512 else 0) + 256, e), sl[17].rec.mute);
    }

    /** The four voices past the bass drum. */
    method Drums(amv: int, vi: int, ghost c: Chip) returns (acc: int)
      requires WellFormed(c) && RomOk(rom) && Sampling(c, amv, vi) && v0fix == 0
      requires Holds(sl[13], c, 13) && Holds(sl[14], c, 14) && Holds(sl[16], c, 16) && Holds(sl[17], c, 17)
      requires Bit(cb, 8) == c.c3 && Bit(cb, 32) == c.c5 && N == c.cnt.N
      modifies this`v0fix, this`held1617, this`cb, sl
      ensures v0fix == 0 && Passed(sl[13], c, 13) && Passed(sl[14], c, 14) && Passed(sl[16], c, 16)
      ensures Passed(sl[17], c, 17)
      ensures forall i :: 0 <= i < 13 || i == 15 ==> sl[i] == old(sl[i])
      ensures acc == 2 * HihatMix(c, rom) + 2 * TomMix(c, rom) && held1617 == SnareMix(c, rom) + CymbalMix(c, rom)
      ensures cb == CymbalBits(Phase10(c.slots[17]))
    {
      hide Phase10, Holds, Passed, CymbalBits, Bit, HihatMix, SnareMix, TomMix, CymbalMix;
      hide TableOk, Tremolo, RomOk, WellFormed, VibAt, Variant;
      var hb, hh := Hihat(amv, vi, c);
      acc := 2 * hh;
      held1617 := Snare(amv, vi, hb, c);
      var tom := Tom(amv, vi, c);
      acc := acc + 2 * tom;
      var tc := Cymbal(amv, vi, hb, c);
      held1617 := held1617 + tc;
    }

    /** The five drums (section 5): hi-hat and tom now, the other three held for the next output. */
    method Rhythmic(amv: int, vi: int, ghost c: Chip) returns (acc: int)
      requires HighReady(c, amv, vi) && Rhythm(c.bd)
      requires Bit(cb, 8) == c.c3 && Bit(cb, 32) == c.c5 && N == c.cnt.N
      modifies this`v0fix, this`held15, this`held1617, this`cb, sl, ch
      ensures HighDone(c) && acc == HighMix(c, rom) && cb == CymbalBits(Phase10(c.slots[17]))
      ensures forall i :: 0 <= i < 12 ==> sl[i] == old(sl[i])
      ensures forall i :: 0 <= i < 6 ==> ch[i] == old(ch[i])
    {
      hide CarMix, Phase10, Holds, Passed, ChanIs, Rhythm, CymbalBits, Bit, HihatMix, SnareMix, TomMix, CymbalMix;
      hide TableOk, Tremolo, RomOk, WellFormed, VibAt, Variant;
      Frozen(ch[7], c, rom, 7);
      Frozen(ch[8], c, rom, 8);
      hide ChanPassed, ChanHolds;
      BassDrum(amv, vi, c);
      acc := Drums(amv, vi, c);
    }

    // ---------------- one sample ----------------

    /** Channels 0 to 5, always melodic. */
    method Melodic(amv: int, vi: int, ghost c: Chip) returns (acc: int)
      requires WellFormed(c) && RomOk(rom) && Sampling(c, amv, vi) && FirstReady(c, vi)
      requires forall i :: 0 <= i < 12 ==> Holds(sl[i], c, i)
      requires forall n :: 0 <= n < 6 ==> ChanHolds(ch[n], c, n)
      modifies this`v0fix, sl, ch
      ensures v0fix == 0 && acc == MelodicMix(c, rom, 6)
      ensures forall i :: 0 <= i < 12 ==> Passed(sl[i], c, i)
      ensures forall n :: 0 <= n < 6 ==> ChanPassed(ch[n], c, rom, n)
      ensures forall i :: 12 <= i < 18 ==> sl[i] == old(sl[i])
      ensures forall n :: 6 <= n < 9 ==> ch[n] == old(ch[n])
    {
      hide Passed, Holds, ChanPassed, ChanHolds, HistoryNext, ModMix, CarMix, WellFormed, RomOk, ModSlot, ChannelOf;
      hide IsModulator;
      WellSized(c);
      acc := 0;
      for n := 0 to 6
        invariant Sampling(c, amv, vi) && if n == 0 then FirstReady(c, vi) else v0fix == 0
        invariant forall i :: 0 <= i < 12 && ChannelOf(i) < n ==> Passed(sl[i], c, i)
        invariant forall i :: 0 <= i < 12 && ChannelOf(i) >= n ==> sl[i] == old(sl[i])
        invariant forall k :: 0 <= k < n ==> ChanPassed(ch[k], c, rom, k)
        invariant forall k :: n <= k < 9 ==> ch[k] == old(ch[k])
        invariant forall i :: 12 <= i < 18 ==> sl[i] == old(sl[i])
        invariant acc == MelodicMix(c, rom, n)
      {
        SlotsOfChannel(n);
        var add, car := Chan(n, amv, vi, c);
        acc := acc + add + car;
      }
      LowSlots();
    }

    /** What rendering channels 6 to 8 needs. */
    ghost predicate HighReady(c: Chip, amv: int, vi: int)
      reads this, step, sl, ch
    {
      && WellFormed(c) && RomOk(rom) && Sampling(c, amv, vi) && v0fix == 0
      && (forall i :: 12 <= i < 18 ==> Holds(sl[i], c, i))
      && (forall n :: 6 <= n < 9 ==> ChanHolds(ch[n], c, n))
    }

    /** Channels 6 to 8 of chip c have been rendered. */
    ghost predicate HighDone(c: Chip)
      requires WellFormed(c) && RomOk(rom) && Sized()
      reads this, sl, ch
    {
      && v0fix == 0
      && (forall i :: 12 <= i < 18 ==> Passed(sl[i], c, i)) && (forall n :: 6 <= n < 9 ==> ChanPassed(ch[n], c, rom, n))
      && held15 == Held15Next(c, rom) && held1617 == Held1617Next(c, rom)
    }

    method HighMelodic(amv: int, vi: int, ghost c: Chip) returns (acc: int)
      requires HighReady(c, amv, vi) && !Rhythm(c.bd)
      modifies this`v0fix, this`held15, this`held1617, sl, ch
      ensures HighDone(c) && acc == HighMix(c, rom)
      ensures forall i :: 0 <= i < 12 ==> sl[i] == old(sl[i])
      ensures forall i :: 0 <= i < 6 ==> ch[i] == old(ch[i])
    {
      hide Passed, Holds, ChanPassed, ChanHolds, ModMix, CarMix, WellFormed, RomOk, ModSlot, ChannelOf, IsModulator;
      hide Rhythm, HistoryNext;
      WellSized(c);
      SlotsOfChannel(6);
      SlotsOfChannel(7);
      SlotsOfChannel(8);
      var a6, c6 := Chan(6, amv, vi, c);
      var a7, c7 := Chan(7, amv, vi, c);
      var a8, c8 := Chan(8, amv, vi, c);
      acc := a6 + a7 + a8;
      held15 := c6;
      held1617 := c7 + c8;
    }

    /** c3 and c5, and the outputs held for the next sample. */
    ghost predicate Latches(c: Chip)
      reads this`cb, this`held15, this`held1617
    {
      && cb == CymbalLatch(c) && held15 == c.held15 && held1617 == c.held1617
    }

    /** Channels 6 to 8, melodic or the drums; slots 15 to 17 are held for the next output. */
    method High(amv: int, vi: int, ghost c: Chip) returns (acc: int)
      requires HighReady(c, amv, vi) && rhy == Rhythm(c.bd) && Latches(c) && N == c.cnt.N
      modifies this`v0fix, this`held15, this`held1617, this`cb, sl, ch
      ensures HighDone(c) && acc == HighMix(c, rom)
      ensures Latches(Rendered(c, rom))
      ensures forall i :: 0 <= i < 12 ==> sl[i] == old(sl[i])
      ensures forall i :: 0 <= i < 6 ==> ch[i] == old(ch[i])
    {
      hide Passed, Holds, ChanPassed, ChanHolds, ModMix, CarMix, WellFormed, RomOk, HistoryNext, SlotsNext;
      hide HistoriesNext, Phase10;
      hide CountersNext, HighMix, Held15Next, Held1617Next;
      assert Bit(cb, 8) == c.c3 && Bit(cb, 32) == c.c5;
      if rhy {
        acc := Rhythmic(amv, vi, c);
      } else {
        acc := HighMelodic(amv, vi, c);
      }
    }

    /** All nine channels: their slots and histories step, and their outputs add up. */
    method Kernels(amv: int, vi: int, ghost c: Chip) returns (acc: int)
      requires WellFormed(c) && RomOk(rom) && Sampling(c, amv, vi) && FirstReady(c, vi)
      requires Slots(c) && Chans(c) && Latches(c) && rhy == Rhythm(c.bd) && N == c.cnt.N
      modifies this`v0fix, this`cb, this`held15, this`held1617, sl, ch
      ensures v0fix == 0 && Latches(Rendered(c, rom))
      ensures AllPassed(c)
      ensures acc == Accumulator(c, rom)
    {
      hide Passed, Holds, ChanPassed, ChanHolds, WellFormed, RomOk, HistoryNext, Rendered, HighMix, MelodicMix;
      hide Variant, Rhythm, Held15Next, Held1617Next;
      WellSized(c);
      acc := held15 + (if rhy then 2 * held1617 else held1617);
      var low := Melodic(amv, vi, c);
      var high := High(amv, vi, c);
      acc := acc + low + high;
    }

    // ---------------- counters ----------------

    /** The counters of section 1.3 but for the vibrato position. */
    ghost predicate Counts(n: Counters)
      reads this`lfo, this`tv, this`tdir, this`tof, this`tstep, this`T, this`carry, this`sub, this`egshift
      reads this`eglow, this`N
    {
      && lfo == n.lfo && tv == n.tv && tdir == n.tdir && tof == n.tof && tstep == n.tstep
      && T == n.T && carry == n.carry && sub == n.sub && egshift == n.egshift && eglow == n.eglow && N == n.N
    }

    /** The vibrato position: a test bit 7 that rose this sample has zeroed it and left the old one
        in v0fix for slot 0. */
    ghost predicate Vibrates(v: int)
      reads this`v0fix, this`vib, this`test
    {
      && 0 <= v0fix < 8 && 0 <= vib < 8
      && (if v0fix != 0 then v == v0fix && vib == 0 && Bit(test, 0x80)
          else v == vib && (Bit(test, 0x80) ==> vib % 4 == 0))
    }

    /** The tremolo counter's step, and the value every slot of this sample uses. */
    method TremoloStep(ghost n: Counters) returns (amv: int)
      requires Counts(n) && CountersOk(n)
      modifies this`tdir, this`tof, this`tv
      ensures var e := TremoloNext(n, test); tv == e.tv && tdir == e.tdir && tof == e.tof
      ensures amv == (if dam then n.tv % 128 / 4 else n.tv % 128 / 16)
    {
      hide Bit, TremoloTurn, TremoloMove;
      var tout := tv % 128;
      var turn := TremoloTurn(tout);
      if turn && !tof {
        tdir := !tdir;
      }
      tof := turn;
      if tstep || Bit(test, 8) {
        TremoloDown(tv, tdir);
        tv := TremoloMove(tv, tdir);
      }
      if Bit(test, 0x80) {
        tv, tdir := 0, false;
      }
      amv := if dam then tout / 4 else tout / 16;
    }

    /** The end of the sample: the envelope timer, the low-frequency counters and the noise. */
    method CountersStep(ghost n: Counters)
      requires Counts(n) && CountersOk(n) && (!Bit(test, 0x80) ==> vib == n.vib)
      modifies this`T, this`carry, this`eglow, this`egshift, this`sub, this`tstep, this`vib, this`lfo, this`N
      ensures Counts(CountersEnd(n, test)) && vib == CountersEnd(n, test).vib && sub == !old(sub)
    {
      TimerStep(n);
      LowFrequencyStep(n);
    }

    method TimerStep(ghost n: Counters)
      requires Counts(n) && CountersOk(n)
      modifies this`T, this`carry, this`eglow, this`egshift, this`sub
      ensures var e := CountersEnd(n, test);
        T == e.T && carry == e.carry && eglow == e.eglow && egshift == e.egshift && sub == e.sub
    {
      hide NoiseSteps, TrailingZeros;
      var sum := T + (if carry || sub then 1 else 0);
      carry := sum / 0x40000 != 0;
      T := sum % 0x40000;
      EnvelopeShift(T);
      if sub {
        eglow := T % 4;
        var t := T % 0x2000;
        egshift := if t != 0 then TrailingZeros(t) + 1 else 0;
      }
      sub := !sub;
    }

    method LowFrequencyStep(ghost n: Counters)
      requires lfo == n.lfo && N == n.N && CountersOk(n) && (!Bit(test, 0x80) ==> vib == n.vib)
      modifies this`tstep, this`vib, this`lfo, this`N
      ensures var e := CountersEnd(n, test);
        tstep == e.tstep && vib == e.vib && lfo == e.lfo && N == e.N
    {
      hide NoiseSteps, TrailingZeros, NoiseJump, OnesJump;
      if Bit(test, 0x80) {
        EighteenOnes(N);
        tstep, vib, lfo := false, 0, 0;
        N := OnesJump(N);
      } else {
        EighteenSteps(N);
        tstep := lfo % 64 == 63;
        vib := (vib + (if lfo == 1023 || Bit(test, 8) then 1 else 0)) % 8;
        lfo := (lfo + 1) % 1024;
        N := NoiseJump(NoiseJump(N));
      }
    }

    // ---------------- the chip the engine stands for ----------------

    ghost predicate Globals(c: Chip)
      reads this`test, this`lag, this`nts, this`bd, this`dam, this`dvb, this`rhy
    {
      test == c.test && lag == c.lag && Modes(c)
    }

    ghost predicate Views(c: Chip)
      requires Sized() && |c.cv| == 9 && |c.mv| == 9
      reads cv, mv
    {
      forall n :: 0 <= n < 9 ==> cv[n].Valid() && mv[n].Valid() && cv[n].Regs() == c.cv[n] && mv[n].Regs() == c.mv[n]
    }

    ghost predicate Chans(c: Chip)
      requires Sized()
      reads ch
    {
      forall n :: 0 <= n < 9 ==> ChanHolds(ch[n], c, n)
    }

    ghost predicate Slots(c: Chip)
      requires Sized()
      reads sl
    {
      forall i :: 0 <= i < 18 ==> Holds(sl[i], c, i)
    }

    /** Every field of the engine is what chip c's registers and counters give. Within a sample a
        slot may still wait to re-evaluate. */
    ghost predicate Stands(c: Chip)
      reads this`rlw, this`lag, this`v0fix, this`test, this`nts, this`bd, this`rhy, this`dam, this`dvb, this`vib
      reads this`tdir, this`tof, this`tstep, this`sub, this`carry, this`egshift, this`eglow, this`cb
      reads this`lfo, this`tv, this`T, this`N, this`held15, this`held1617, step, sl, ch, cv, mv
    {
      && Sized() && WellFormed(c)
      && Globals(c) && Latches(c) && Counts(c.cnt) && Vibrates(c.cnt.vib)
      && Views(c) && Chans(c) && Slots(c)
      && TableIdle(step[..], rlw, sub)
    }

    /** Between samples no slot waits. */
    ghost predicate Rested()
      requires Sized()
      reads this`v0fix, this`test, this`vib, sl
    {
      v0fix == 0 && (Bit(test, 0x80) ==> vib == 0) && forall i :: 0 <= i < 18 ==> Settled(sl[i])
    }

    /** A raised test bit 7 waits for slot 0, forced with its key unchanged. */
    ghost predicate FixWaits()
      requires Sized()
      reads this`v0fix, sl
    {
      v0fix != 0 ==> sl[0].rec.span == 0 && (sl[0].cache.key <==> sl[0].stage != Release)
    }

    /** Every slot and channel has been through the sample of chip c. */
    ghost predicate AllPassed(c: Chip)
      requires Sized()
      reads sl, ch
    {
      (forall i :: 0 <= i < 18 ==> Passed(sl[i], c, i)) && (forall n :: 0 <= n < 9 ==> ChanPassed(ch[n], c, rom, n))
    }

    /** One sample of chip c, writes applied: the kernels, the counters and the DAC. */
    method Render(ghost c: Chip) returns (out: int)
      requires Stands(c) && FixWaits()
      modifies this`v0fix, this`rlw, this`tdir, this`tof, this`tv, this`T, this`carry, this`eglow, this`egshift,
               this`sub, this`tstep, this`vib, this`lfo, this`N, this`cb, this`held15, this`held1617, step, sl, ch
      ensures Stands(Rendered(c, rom)) && Rested()
      ensures out == DacWord(Accumulator(c, rom))
    {
      hide Rendered, Accumulator, AllPassed, Passed, Holds, ChanPassed, ChanHolds, TableIdle, TremoloNext, Rhythm;
      hide Dam, Dvb, Bit;
      var acc := SumSlots(c);
      CountersGood(c);
      TremoloKeeps(c.cnt, test);
      EndSample(c);
      out := Dac(acc);
      DacIsWord(acc);
    }

    /** The end of the sample: with its counters moved, the engine stands for the rendered chip. */
    method EndSample(ghost c: Chip)
      requires Sized() && WellFormed(c) && Globals(c) && Views(c) && AllPassed(c) && Latches(Rendered(c, rom))
      requires Counts(TremoloNext(c.cnt, test)) && TableIdle(step[..], rlw, !sub) && v0fix == 0
      requires !Bit(test, 0x80) ==> vib == c.cnt.vib
      modifies this`T, this`carry, this`eglow, this`egshift, this`sub, this`tstep, this`vib, this`lfo, this`N
      ensures Stands(Rendered(c, rom)) && Rested()
    {
      hide WellFormed, RomOk, Passed, Holds, ChanPassed, ChanHolds, TableIdle, AllPassed, Chans, Slots, Views;
      hide Rendered, CountersEnd, TremoloNext, Rhythm, Dam, Dvb, Bit;
      CountersGood(c);
      TremoloKeeps(c.cnt, test);
      CountersStep(TremoloNext(c.cnt, test));
      hide Counts;
      RenderedStands(c);
    }

    /** The sample up to its sum: the tremolo counter, the step table and the kernels. */
    method SumSlots(ghost c: Chip) returns (acc: int)
      requires Stands(c) && FixWaits()
      modifies this`v0fix, this`rlw, this`tdir, this`tof, this`tv, this`cb, this`held15, this`held1617, step, sl, ch
      ensures v0fix == 0 && Latches(Rendered(c, rom)) && TableIdle(step[..], rlw, !sub) && AllPassed(c)
      ensures var e := TremoloNext(c.cnt, test); tv == e.tv && tdir == e.tdir && tof == e.tof
      ensures acc == Accumulator(c, rom)
    {
      hide TableIdle, WellFormed, RomOk, Sampling, FirstReady, AllPassed, Rendered, Accumulator, TremoloNext, Bit;
      hide Views, Chans, Slots, Variant;
      var amv, vi := BeginSample(c);
      acc := Kernels(amv, vi, c);
    }

    /** The tremolo value, the vibrato variant and the step table of this sample. */
    method BeginSample(ghost c: Chip) returns (amv: int, vi: int)
      requires Stands(c) && FixWaits()
      modifies this`rlw, this`tdir, this`tof, this`tv, step
      ensures Sampling(c, amv, vi) && FirstReady(c, vi) && TableIdle(step[..], rlw, !sub)
      ensures var e := TremoloNext(c.cnt, test); tv == e.tv && tdir == e.tdir && tof == e.tof
    {
      hide Variant, TableIdle, TableOk, WellFormed, RomOk, TremoloNext, Bit, Views, Chans, Slots, Sampling, FirstReady;
      CountersGood(c);
      amv := TremoloStep(c.cnt);
      vi := Variant(dvb, vib);
      StepTable();
      SamplingOf(c, amv, vi);
    }

    lemma SamplingOf(c: Chip, amv: int, vi: int)
      requires Sized() && WellFormed(c) && Globals(c) && Vibrates(c.cnt.vib)
      requires FixWaits() && TableOk(step[..], TimerOf(c.cnt))
      requires amv == (if dam then c.cnt.tv % 128 / 4 else c.cnt.tv % 128 / 16) && vi == Variant(dvb, vib)
      ensures Sampling(c, amv, vi) && FirstReady(c, vi)
    {
    }

    lemma RenderedStands(c: Chip)
      requires Sized() && WellFormed(c) && Globals(c) && Latches(Rendered(c, rom))
      requires Counts(CountersNext(c.cnt, c.test)) && v0fix == 0 && vib == CountersNext(c.cnt, c.test).vib
      requires Views(c) && TableIdle(step[..], rlw, sub)
      requires AllPassed(c)
      ensures Stands(Rendered(c, rom)) && Rested()
    {
      hide TableIdle, CountersNext, SlotsNext, HistoriesNext, Held15Next, Held1617Next, RomOk, WellFormed, Passed;
      hide Holds, Rendered, HistoryNext;
      RenderedWellFormed(c, rom);
      RenderedParts(c, rom);
      forall i | 0 <= i < 18
        ensures Holds(sl[i], Rendered(c, rom), i) && Settled(sl[i])
      {
        PassedHolds(sl[i], c, rom, i);
      }
      assert forall n :: 0 <= n < 9 ==> ChanPassed(ch[n], c, rom, n);
    }

    // ---------------- write application ----------------

    /** The view a slot reads (section 7.6). */
    function ViewAt(i: int): OplView
      requires 0 <= i < 18 && cv.Length == 9 && mv.Length == 9
      reads cv, mv
    {
      if IsModulator(i) then mv[ChannelOf(i)] else cv[ChannelOf(i)]
    }

    function Drummed(i: int): bool
      requires 0 <= i < 18
      reads this`rhy, this`bd
    {
      i >= 12 && rhy && Bit(bd, DRUMBIT[i - 12])
    }

    lemma KeyIs(c: Chip, i: int)
      requires Sized() && WellFormed(c) && Modes(c) && Views(c) && 0 <= i < 18
      ensures ViewAt(i).Valid() && ViewAt(i).Regs() == SlotView(c, i)
      ensures Key(c, i) <==> ViewAt(i).kon || Drummed(i)
    {
      hide Bit;
      if i >= 12 { DrumBits(bd, i); } else { NoDrum(bd, i); }
    }

    ghost predicate Modes(c: Chip)
      reads this`nts, this`bd, this`dam, this`dvb, this`rhy
    {
      nts == c.nts && bd == c.bd && dam == Dam(bd) && dvb == Dvb(bd) && rhy == Rhythm(bd)
    }

    /** The engine's registers and caches are those of chip c, feedback aside. */
    ghost predicate Viewed(c: Chip)
      reads this`nts, this`bd, this`dam, this`dvb, this`rhy, sl, cv, mv
    {
      Sized() && WellFormed(c) && Modes(c) && Views(c) && Slots(c)
    }

    /** The engine's registers and caches are those of chip c. */
    ghost predicate Written(c: Chip)
      reads this`nts, this`bd, this`dam, this`dvb, this`rhy, sl, ch, cv, mv
    {
      Viewed(c) && Chans(c)
    }

    method ChanFb(n: int)
      requires 0 <= n < 9 && ch.Length == 9 && mv.Length == 9
      modifies ch
      ensures FollowsView(ch[n], mv[n].Regs()) && ch[n].hist == old(ch[n].hist)
      ensures forall k :: 0 <= k < 9 && k != n ==> ch[k] == old(ch[k])
    {
      ch[n] := ch[n].(incl := if mv[n].con then -1 else 0, fbl := if mv[n].fb != 0 then 13 + mv[n].fb else 32);
    }

    /** Slot i reads a changed view; c2 is the chip with it. */
    method SlotViewed(i: int, what: Change, ghost c: Chip, ghost c2: Chip)
      requires 0 <= i < 18 && Sized() && WellFormed(c) && WellFormed(c2) && Modes(c2) && Views(c2) && Holds(sl[i], c, i)
      requires c2.slots[i] == c.slots[i] && c2.nts == c.nts
      requires what.high ==> what.low
      requires !what.low ==> SlotView(c2, i).fnum == SlotView(c, i).fnum && SlotView(c2, i).blk == SlotView(c, i).blk
      requires !what.high ==>
        SlotView(c2, i).fnum / 256 == SlotView(c, i).fnum / 256 && SlotView(c2, i).blk == SlotView(c, i).blk
      requires !what.key ==> Key(c2, i) == Key(c, i)
      modifies sl
      ensures Holds(sl[i], c2, i)
      ensures forall j :: 0 <= j < 18 && j != i ==> sl[j] == old(sl[j])
    {
      hide PhaseFits, LevelFits, RateFits, SelfFits, RecordFits, SlotOk, Bit, IsModulator, ChannelOf, Drummed, ViewAt;
      hide DrumKey, SlotView;
      KeyIs(c2, i);
      var s := Reviewed(sl[i], ViewAt(i), what, ViewAt(i).kon || Drummed(i), nts, SlotView(c, i));
      sl[i] := s;
    }

    /** The carrier view of channel n becomes v. */
    method SetCarrier(n: int, v: OplView, what: Change, ghost c: Chip)
      requires 0 <= n < 9 && Written(c) && v.Valid() && Tells(what, cv[n], v)
      modifies sl, cv
      ensures Written(c.(cv := c.cv[n := v.Regs()])) && cv[n] == v
      ensures forall i :: 0 <= i < 18 && i != ModSlot(n) + 3 ==> sl[i] == old(sl[i])
    {
      hide Is, SlotOk, RomOk, Bit, IsModulator, ChannelOf, ModSlot, DrumKey, KslBase, Out13, UnpackHistory;
      ghost var c2 := c.(cv := c.cv[n := v.Regs()]);
      var i := ModSlot(n) + 3;
      cv[n] := v;
      SlotsOfChannel(n);
      if what.low || what.high || what.key {
        SlotViewed(i, what, c, c2);
      } else {
        HoldsKept(sl[i], c, c2, i);
      }
      forall j | 0 <= j < 18 && j != i
        ensures Holds(sl[j], c2, j)
      {
        HoldsKept(sl[j], c, c2, j);
      }
    }

    /** The modulator view of channel n becomes v. */
    method SetModulator(n: int, v: OplView, what: Change, ghost c: Chip)
      requires 0 <= n < 9 && Viewed(c) && v.Valid() && Tells(what, mv[n], v)
      modifies sl, mv
      ensures Viewed(c.(mv := c.mv[n := v.Regs()])) && mv[n] == v
      ensures forall i :: 0 <= i < 18 && i != ModSlot(n) ==> sl[i] == old(sl[i])
    {
      hide Is, SlotOk, RomOk, Bit, IsModulator, ChannelOf, ModSlot, DrumKey, KslBase, Out13;
      ghost var c2 := c.(mv := c.mv[n := v.Regs()]);
      var i := ModSlot(n);
      mv[n] := v;
      SlotsOfChannel(n);
      if what.low || what.high || what.key {
        SlotViewed(i, what, c, c2);
      } else {
        HoldsKept(sl[i], c, c2, i);
      }
      forall j | 0 <= j < 18 && j != i
        ensures Holds(sl[j], c2, j)
      {
        HoldsKept(sl[j], c, c2, j);
      }
    }

    /** What channel n's carrier already sees reaches its modulator, channels 0 to 2. */
    method MvFollow(n: int, ghost c: Chip)
      requires 0 <= n < 9 && Written(c)
      modifies sl, ch, mv
      ensures Written(c.(mv := c.mv[n := c.cv[n]]))
    {
      hide Is, SlotOk, RomOk, Bit, IsModulator, ChannelOf, ModSlot, KslBase, Out13, UnpackHistory, Holds, Modes;
      var m, k := mv[n], cv[n];
      var moved := m.fnum != k.fnum || m.blk != k.blk;
      var what := Change(moved, m.blk != k.blk || m.fnum / 256 != k.fnum / 256, m.kon != k.kon);
      SetModulator(n, k, what, c);
      ChanFb(n);
    }

    /** The late half of channel n of 3 to 5: its FB. */
    method FbFollow(n: int, ghost c: Chip)
      requires 0 <= n < 9 && Written(c)
      modifies sl, ch, mv
      ensures Written(c.(mv := c.mv[n := c.mv[n].(fb := c.cv[n].fb)]))
      ensures forall i :: 0 <= i < 18 ==> sl[i] == old(sl[i])
    {
      hide Is, SlotOk, RomOk, Bit, IsModulator, ChannelOf, ModSlot, Out13, UnpackHistory, DrumKey;
      ghost var c2 := c.(mv := c.mv[n := c.mv[n].(fb := c.cv[n].fb)]);
      mv[n] := mv[n].(fb := cv[n].fb);
      ChanFb(n);
      forall i | 0 <= i < 18
        ensures Holds(sl[i], c2, i)
      {
        HoldsKept(sl[i], c, c2, i);
      }
    }

    /** The modulator half of an F-number, block or key write to channel n. */
    method AbModulator(n: int, v: OplView, what: Change, ghost c: Chip)
      requires 0 <= n < 9 && Written(c) && v.Valid() && Tells(what, mv[n], v) && v.con == mv[n].con && v.fb == mv[n].fb
      modifies sl, mv
      ensures Written(c.(mv := c.mv[n := v.Regs()])) && mv[n] == v
    {
      hide Is, Modes, UnpackHistory, Slots, SlotOk;
      SetModulator(n, v, what, c);
    }

    /** A0-A8 and B0-B8, and A9-AB and B9-BB for both slots now (section 7.6). */
    method ChanAb(n: int, reg: u8, d: u8, alias: bool, ghost c: Chip)
      requires Written(c) && lag == c.lag && c.mv == c.cv && IsChannelReg(reg) && reg < 0xC0
      requires n == TargetChannel(reg) && alias == IsAlias(reg)
      modifies this`lag, sl, cv, mv
      ensures Written(ChannelWrite(c, reg, d)) && lag == ChannelWrite(c, reg, d).lag
    {
      hide Chans, Slots, Modes, WellFormed, RomOk, WriteView, Tells;
      WellSized(c);
      ghost var c2 := c.(cv := c.cv[n := WriteView(c.cv[n], reg, d)]);
      assert mv[n] == cv[n];
      var v, what := ViewAb(cv[n], reg, d);
      KeepsFb(c.cv[n], reg, d);
      SetCarrier(n, v, what, c);
      if n < 3 && !alias {
        lag := lag[n := true];
        WrittenLag(c2, lag);
      } else if n < 3 {
        var m, w2 := ViewAb(mv[n], reg, d);
        AbModulator(n, m, w2, c2);
      } else {
        var m := mv[n].(fnum := v.fnum, blk := v.blk, kon := v.kon, k6 := v.k6);
        assert m == v;
        AbModulator(n, m, what, c2);
      }
    }

    lemma WrittenLag(c: Chip, lag': seq<bool>)
      requires Written(c) && |lag'| == 6
      ensures Written(c.(lag := lag'))
    {
      hide Cached, SlotOk, UnpackHistory;
    }

    /** C0-C8, and C9-CB for both slots now: FB and CON. */
    method ChanC(n: int, reg: u8, d: u8, alias: bool, ghost c: Chip)
      requires Written(c) && lag == c.lag && IsChannelReg(reg) && reg >= 0xC0
      requires n == TargetChannel(reg) && alias == IsAlias(reg)
      modifies this`lag, sl, ch, cv, mv
      ensures Written(ChannelWrite(c, reg, d)) && lag == ChannelWrite(c, reg, d).lag
    {
      hide Slots, Chans, Modes, RomOk, WellFormed, ChannelWrite, TargetChannel, IsAlias;
      WellSized(c);
      ChannelC(c, reg, d);
      var con, fb := d % 2 == 1, (d / 2) % 8;
      ghost var c2 := c.(cv := c.cv[n := c.cv[n].(con := con, fb := fb)]);
      SameKsl(cv[n], con, fb);
      SetCarrier(n, cv[n].(con := con, fb := fb), Change(false, false, false), c);
      if n < 3 && !alias {
        lag := lag[n := true];
        WrittenLag(c2, lag);
      } else {
        CLater(n, con, fb, c2);
      }
    }

    /** The modulator's side of it: all of it now, or of channels 3 to 5 the feedback one sample later. */
    method CLater(n: int, con: bool, fb: int, ghost c: Chip)
      requires 0 <= n < 9 && Written(c) && lag == c.lag && |lag| == 6 && 0 <= fb < 8
      modifies this`lag, sl, ch, mv
      ensures lag == if 3 <= n < 6 then c.lag[n := true] else c.lag
      ensures var v := c.mv[n].(con := con);
        Written(c.(mv := c.mv[n := if 3 <= n < 6 then v else v.(fb := fb)], lag := lag))
    {
      hide Slots, Chans, Modes, RomOk, WellFormed;
      WellSized(c);
      var m := mv[n].(con := con);
      if 3 <= n < 6 {
        lag := lag[n := true];
      } else {
        m := m.(fb := fb);
      }
      CModulator(n, m, c);
      WrittenLag(c.(mv := c.mv[n := m.Regs()]), lag);
    }

    /** The modulator half of an FB and CON write to channel n. */
    method CModulator(n: int, v: OplView, ghost c: Chip)
      requires 0 <= n < 9 && Written(c) && v == mv[n].(con := v.con, fb := v.fb) && 0 <= v.fb < 8
      modifies sl, ch, mv
      ensures Written(c.(mv := c.mv[n := v.Regs()]))
    {
      hide Is, SlotOk, RomOk, Bit, IsModulator, ChannelOf, ModSlot, Out13, UnpackHistory, Holds, Modes;
      SameKsl(mv[n], v.con, v.fb);
      SetModulator(n, v, Change(false, false, false), c);
      ChanFb(n);
    }

    /** BD: AM and VIB depth, rhythm mode and the drum keys. */
    method BdWrite(d: u8, ghost c: Chip)
      requires Written(c) && cb == CymbalLatch(c)
      modifies this`bd, this`dam, this`dvb, this`rhy, this`cb, sl
      ensures Written(RhythmWrite(c, d)) && cb == CymbalLatch(RhythmWrite(c, d))
    {
      hide ChanHolds, RomOk, KslBase, ViewOk, WellFormed, Holds, RhythmWrite, CymbalBits, CymbalLatch, Dam, Dvb, Rhythm;
      RhythmParts(c, d);
      if !rhy && Rhythm(d) {
        SlotsHold(c, 0);
        PhaseIs(sl[0], c, 0);
        cb := CymbalBits(PhaseTop(sl[0].P));
      }
      bd, dam, dvb, rhy := d, Dam(d), Dvb(d), Rhythm(d);
      DrumKeys(c, RhythmWrite(c, d));
      ChansKept(c, RhythmWrite(c, d));
    }

    lemma ChansKept(c: Chip, c2: Chip)
      requires Sized() && Chans(c) && WellFormed(c2) && c2.hist == c.hist && c2.mv == c.mv
      ensures Chans(c2)
    {
      hide ChanIs;
    }

    lemma SlotsHold(c: Chip, i: int)
      requires Sized() && Slots(c) && 0 <= i < 18
      ensures Holds(sl[i], c, i)
    {
    }

    /** Slots 12 to 17 take the keys of chip c2, whose rhythm bits alone differ from those of c. */
    method DrumKeys(ghost c: Chip, ghost c2: Chip)
      requires Sized() && WellFormed(c) && WellFormed(c2) && Modes(c2) && Views(c2) && Slots(c)
      requires c2.slots == c.slots && c2.cv == c.cv && c2.mv == c.mv && c2.nts == c.nts
      modifies sl
      ensures Slots(c2)
    {
      hide Is, SlotOk, RomOk, KslBase, Out13, Bit, DrumKey, Drummed, IsModulator, ChannelOf;
      ghost var sl0 := sl[..];
      for i := 12 to 18
        modifies sl
        invariant forall j :: 0 <= j < 12 || i <= j < 18 ==> sl[j] == sl0[j]
        invariant forall j :: 12 <= j < i ==> Holds(sl[j], c2, j)
      {
        SlotViewed(i, Change(false, false, true), c, c2);
      }
      forall j | 0 <= j < 12
        ensures Holds(sl[j], c2, j)
      {
        NoDrum(c.bd, j);
        NoDrum(c2.bd, j);
        HoldsKept(sl[j], c, c2, j);
      }
    }

    /** 08: the bit of the F-number that joins the block in the key scale. */
    method NtsWrite(d: u8, ghost c: Chip)
      requires Written(c)
      modifies this`nts, sl
      ensures Written(c.(nts := Bit(d, 0x40)))
    {
      hide SlotOk, RomOk, KslBase, Out13, UnpackHistory, Bit, DrumKey, Cached, NtsFlip;
      ghost var c2 := c.(nts := Bit(d, 0x40));
      ghost var sl0 := sl[..];
      var n := Bit(d, 0x40);
      if n == nts {
        return;
      }
      nts := n;
      for i := 0 to 18
        modifies sl
        invariant forall j :: i <= j < 18 ==> sl[j] == sl0[j]
        invariant forall j :: 0 <= j < i ==> Holds(sl[j], c2, j)
      {
        assert Holds(sl[i], c, i);
        NtsFlipIs(sl[i], SlotView(c, i), Key(c, i), c.nts);
        sl[i] := NtsFlip(sl[i]);
      }
    }

    /** Register 01. When bit 7 is raised slot 0 keeps the old vibrato position for one more sample. */
    method TestWrite(d: u8, ghost c: Chip)
      requires Written(c) && test == c.test && Vibrates(c.cnt.vib) && v0fix == 0 && Settled(sl[0])
      modifies this`test, this`v0fix, this`vib, sl
      ensures Written(c.(test := d)) && test == d && Vibrates(c.cnt.vib) && FixWaits()
    {
      hide SlotOk, RomOk, KslBase, Out13, UnpackHistory, Bit, DrumKey, PhaseFits, LevelFits, RateFits, SelfFits;
      hide RecordFits;
      if Bit(d, 0x80) && !Bit(test, 0x80) && vib % 4 != 0 {
        v0fix := vib;
        vib := 0;
        assert Holds(sl[0], c, 0);
        sl[0] := Force(sl[0]);
        assert Holds(sl[0], c, 0);
      }
      test := d;
    }

    /** An operator write to slot i. */
    method SlotWrite(i: int, reg: u8, d: u8, ghost c: Chip)
      requires Written(c) && test == c.test && IsOperatorReg(reg) && i == OffsetSlot(reg)
      modifies sl
      ensures Written(OperatorWrite(c, reg, d))
      ensures forall j :: 0 <= j < 18 && j != i ==> sl[j] == old(sl[j])
    {
      hide SlotOk, RomOk, KslBase, Out13, UnpackHistory, Bit, DrumKey, Ready, IsModulator, ChannelOf, ViewAt, Drummed;
      ghost var c2 := OperatorWrite(c, reg, d);
      KeyIs(c, i);
      var s := sl[i];
      hide Cached;
      assert Holds(s, c, i);
      s := Rewritten(s, reg, d, ViewAt(i), nts, Bit(test, 0x20), Key(c, i));
      sl[i] := s;
      forall j | 0 <= j < 18 && j != i
        ensures Holds(sl[j], c2, j)
      {
        HoldsKept(sl[j], c, c2, j);
      }
    }

    /** One write (opl_apply). Late halves have been applied before it. */
    method Apply(reg: u8, d: u8, ghost c: Chip)
      requires Written(c) && Globals(c) && cb == CymbalLatch(c) && Vibrates(c.cnt.vib) && v0fix == 0 && Settled(sl[0])
      requires c.mv == c.cv && IsReg(reg)
      modifies this`test, this`v0fix, this`vib, this`nts, this`bd, this`dam, this`dvb, this`rhy, this`cb, this`lag
      modifies sl, ch, cv, mv
      ensures var c2 := OplSpec.Apply(c, Write(reg, d));
        Written(c2) && Globals(c2) && cb == CymbalLatch(c2) && Vibrates(c2.cnt.vib) && FixWaits()
    {
      hide Slots, Chans, Views, Dam, Dvb, Rhythm, WellFormed, RomOk, Settled, ChannelWrite, RhythmWrite, OperatorWrite;
      AppliedParts(c, reg, d);
      if reg < 0x20 {
        if reg == 0x01 {
          TestWrite(d, c);
        } else {
          NtsWrite(d, c);
        }
      } else if 0xA0 <= reg < 0xE0 {
        if reg == 0xBD {
          BdWrite(d, c);
        } else {
          var lo := reg % 16;
          var alias := 9 <= lo < 14;
          var n := if lo >= 14 then lo - 14 else if lo >= 9 then lo - 9 else lo;
          if reg >= 0xC0 {
            ChanC(n, reg, d, alias, c);
          } else {
            ChanAb(n, reg, d, alias, c);
          }
        }
      } else {
        OffsetTable(reg);
        SlotWrite(OFF2SLOT[reg % 32], reg, d, c);
      }
    }

    // ---------------- write path ----------------

    /** The halves that follow by one sample. */
    method FollowLate(ghost c: Chip)
      requires Written(c) && lag == c.lag
      modifies this`lag, sl, ch, mv
      ensures Written(Follow(c)) && lag == NO_LAG
      ensures !LateHalf(c.lag) ==> forall i :: 0 <= i < 18 ==> sl[i] == old(sl[i])
    {
      hide Chans, WellFormed, Slots, Views, Modes, FollowedView;
      WellSized(c);
      var was := lag;
      lag := NO_LAG;
      ghost var d := c.(lag := NO_LAG);
      WrittenLag(c, NO_LAG);
      FollowNone(c);
      for n := 0 to 6
        modifies sl, ch, mv
        invariant Written(d) && d == c.(lag := NO_LAG, mv := HalfFollowed(c, n))
        invariant !LateHalf(was) ==> forall i :: 0 <= i < 18 ==> sl[i] == old(sl[i])
      {
        FollowStep(c, n);
        if was[n] {
          if n < 3 {
            MvFollow(n, d);
            d := d.(mv := d.mv[n := d.cv[n]]);
          } else {
            FbFollow(n, d);
            d := d.(mv := d.mv[n := d.mv[n].(fb := d.cv[n].fb)]);
          }
        }
      }
      FollowAll(c);
    }

    ghost predicate Queued(m: Machine)
      reads this`queue, this`credit, this`drops
    {
      queue == m.queue && credit == m.credit && drops == m.drops
    }

    /** Views that lag catch up; then one queued write, which a catch-up of channels 0 to 2 or too little
        credit puts off. */
    method Commit()
      requires Valid()
      modifies this`queue, this`credit, this`test, this`v0fix, this`vib, this`nts, this`bd, this`dam, this`dvb, this`rhy
      modifies this`cb, this`lag, sl, ch, cv, mv
      ensures Stands(OplSpec.Commit(m).chip) && FixWaits() && Queued(OplSpec.Commit(m))
    {
      hide Stands, Rested, WellFormed, KeysAgree, Coherent, OplSpec.Apply, Follow, HeldOk, FixWaits;
      CommitStarts(m);
      assert lag == m.chip.lag by { StandsWritten(m.chip); }
      var late := lag[0] || lag[1] || lag[2];
      if !late && credit >= 96 && |queue| > 0 {
        var e := queue[0];
        queue := queue[1..];
        credit := credit - 96;
        CommitChip(true, e.reg, e.val);
      } else {
        CommitChip(false, 0, 0);
      }
      credit := credit + 72;
      var cap := if |queue| > 0 then 192 else 96;
      if credit > cap {
        credit := cap;
      }
    }

    /** The late halves, then write reg with val if there is one to apply. */
    method CommitChip(takes: bool, reg: u8, val: u8)
      requires AtRest(m) && Stands(m.chip) && Rested()
      requires takes ==> IsReg(reg) && |m.chip.lag| == 6 && !LateHalf(m.chip.lag)
      modifies this`test, this`v0fix, this`vib, this`nts, this`bd, this`dam, this`dvb, this`rhy
      modifies this`cb, this`lag, sl, ch, cv, mv
      ensures WellFormed(m.chip)
      ensures Stands(if takes then OplSpec.Apply(Follow(m.chip), Write(reg, val)) else Follow(m.chip)) && FixWaits()
    {
      hide Stands, WellFormed, KeysAgree, Coherent, OplSpec.Apply, Follow, HeldOk, Settled, Bit, QueueOk, CreditOk;
      hide IsReg;
      CommitStarts(m);
      StandsWritten(m.chip);
      FollowStands(m.chip);
      if takes {
        ApplyStands(reg, val, Follow(m.chip));
      }
    }

    method FollowStands(ghost c: Chip)
      requires Stands(c) && v0fix == 0
      modifies this`lag, sl, ch, mv
      ensures Stands(Follow(c)) && lag == NO_LAG && FixWaits()
      ensures !LateHalf(c.lag) ==> forall i :: 0 <= i < 18 ==> sl[i] == old(sl[i])
    {
      hide Written, WellFormed, TableIdle, FollowedView;
      StandsWritten(c);
      FollowLate(c);
      WrittenStands(Follow(c));
    }

    method ApplyStands(reg: u8, val: u8, ghost c: Chip)
      requires Stands(c) && v0fix == 0 && Settled(sl[0]) && c.mv == c.cv && IsReg(reg)
      modifies this`test, this`v0fix, this`vib, this`nts, this`bd, this`dam, this`dvb, this`rhy
      modifies this`cb, this`lag, sl, ch, cv, mv
      ensures Stands(OplSpec.Apply(c, Write(reg, val))) && FixWaits()
    {
      hide Stands, Written, Globals, Counts, Vibrates, WellFormed, TableIdle, OplSpec.Apply, Settled, IsReg, FixWaits;
      StandsParts(c);
      Apply(reg, val, c);
      assert step[..] == old(step[..]);
      AppliedStands(c, reg, val);
    }

    lemma StandsParts(c: Chip)
      requires Stands(c)
      ensures WellFormed(c) && Written(c) && Globals(c) && Latches(c) && Counts(c.cnt) && Vibrates(c.cnt.vib)
      ensures TableIdle(step[..], rlw, sub)
    {
      hide TableIdle, Latches, Counts, Vibrates;
    }

    /** A written engine stands where the counters and the held outputs were left alone. */
    lemma AppliedStands(c: Chip, reg: u8, val: u8)
      requires WellFormed(c) && IsReg(reg) && Counts(c.cnt) && TableIdle(step[..], rlw, sub)
      requires held15 == c.held15 && held1617 == c.held1617
      requires var e := OplSpec.Apply(c, Write(reg, val));
        Written(e) && Globals(e) && cb == CymbalLatch(e) && Vibrates(e.cnt.vib)
      ensures Stands(OplSpec.Apply(c, Write(reg, val)))
    {
      hide OplSpec.Apply, Written, Counts, Vibrates, TableIdle, WellFormed, IsReg;
      AppliedParts(c, reg, val);
      WrittenStands(OplSpec.Apply(c, Write(reg, val)));
    }

    lemma WrittenStands(c: Chip)
      requires Written(c) && test == c.test && lag == c.lag && Latches(c) && Counts(c.cnt) && Vibrates(c.cnt.vib)
      requires TableIdle(step[..], rlw, sub)
      ensures Stands(c)
    {
      hide TableIdle, WellFormed, Latches, Counts, Vibrates;
    }

    lemma StandsWritten(c: Chip)
      requires Stands(c)
      ensures Written(c) && lag == c.lag && RomOk(rom)
    {
    }

    // ---------------- the engine ----------------

    /** The engine stands for machine m, between samples. */
    ghost predicate Valid()
      reads this, step, sl, ch, cv, mv
    {
      AtRest(m) && Stands(m.chip) && Rested() && Queued(m)
    }

    /** One sample: the word the DAC is fed. */
    method Sample() returns (out: int)
      requires Valid()
      modifies this, step, sl, ch, cv, mv
      ensures Valid() && (m, out) == OplSpec.Sample(old(m), rom)
    {
      hide Stands, WellFormed, KeysAgree, Coherent, HeldOk, OplSpec.Commit, Rendered, Accumulator;
      StandsWritten(m.chip);
      SampleRests(m, rom);
      ghost var n := OplSpec.Commit(m);
      if lag != NO_LAG || |queue| > 0 || credit != 96 {
        Commit();
      } else {
        CommitIdle(m);
      }
      out := Render(n.chip);
      m := n.(chip := Rendered(n.chip, rom));
    }

    /** A write offered to the queue. */
    method Push(reg: u8, val: u8)
      requires Valid()
      modifies this`queue, this`drops, this`m
      ensures Valid() && m == OplSpec.Push(old(m), Write(reg, val))
    {
      hide AtRest, Stands, Rested, IsReg, RegBit;
      RegBits(reg);
      PushRests(m, Write(reg, val));
      m := OplSpec.Push(m, Write(reg, val));
      if RegBit(reg) {
        if |queue| < QUEUE_SIZE {
          queue := queue + [Write(reg, val)];
        } else if drops < MAX_DROPS {
          drops := drops + 1;
        }
      }
    }

    // ---------------- reset ----------------

    /** The registers, phases, levels, stages and histories of chip c, and no cache. */
    ghost predicate Bare(c: Chip)
      reads this`nts, this`bd, sl, ch, cv, mv
    {
      && Sized() && WellFormed(c) && nts == c.nts && bd == c.bd
      && (forall i :: 0 <= i < 18 ==> Raw(sl[i], c.slots[i]))
      && (forall n :: 0 <= n < 9 ==> cv[n].Regs() == c.cv[n] && mv[n].Regs() == c.mv[n])
      && (forall n :: 0 <= n < 9 ==> 0 <= ch[n].hist < WORD && UnpackHistory(ch[n].hist) == c.hist[n])
    }

    /** Slots 0 to n - 1 have been rebuilt for chip c. */
    ghost predicate SlotsRefilled(c: Chip, n: int)
      requires Sized() && WellFormed(c) && 0 <= n <= 18
      reads sl
    {
      forall i :: 0 <= i < n ==> Refilled(sl[i], c.slots[i], SlotView(c, i), Key(c, i), c.nts)
    }

    /** Every cache of the engine is what chip c's registers give, and every record fits its slot's
        stage and level. */
    ghost predicate Restored(c: Chip)
      reads this`nts, this`bd, this`dam, this`dvb, this`rhy, sl, ch, cv, mv
    {
      Sized() && WellFormed(c) && Modes(c) && Views(c) && Chans(c) && SlotsRefilled(c, 18)
    }

    /** Every cache from the registers alone. */
    method Rebuild(ghost c: Chip)
      requires Bare(c)
      modifies this`dam, this`dvb, this`rhy, sl, ch, cv, mv
      ensures Restored(c)
      ensures KeysAgree(c) ==> Written(c) && forall i :: 0 <= i < 18 ==> Settled(sl[i])
    {
      hide UnpackHistory, Raw, SlotOk, Bit, KslBase, RomOk, SlotsRefilled;
      dam, dvb, rhy := Dam(bd), Dvb(bd), Rhythm(bd);
      RebuildViews(c);
      RebuildSlots(c);
    }

    method RebuildViews(ghost c: Chip)
      requires Bare(c)
      modifies ch, cv, mv
      ensures Views(c) && Chans(c)
    {
      hide UnpackHistory, Raw, SlotOk, Bit, KslBase, RomOk;
      ghost var ch0 := ch[..];
      for n := 0 to 9
        invariant forall k :: 0 <= k < 9 ==> cv[k].Regs() == c.cv[k] && mv[k].Regs() == c.mv[k]
        invariant forall k :: 0 <= k < n ==> cv[k].Valid() && mv[k].Valid() && ChanHolds(ch[k], c, k)
        invariant forall k :: n <= k < 9 ==> ch[k] == ch0[k]
      {
        assert ViewOk(c.cv[n]) && ViewOk(c.mv[n]);
        cv[n] := ViewK6(cv[n]);
        mv[n] := ViewK6(mv[n]);
        ChanFb(n);
      }
    }

    method RebuildSlots(ghost c: Chip)
      requires Sized() && WellFormed(c) && Modes(c) && Views(c)
      requires forall i :: 0 <= i < 18 ==> Raw(sl[i], c.slots[i])
      modifies sl
      ensures SlotsRefilled(c, 18)
      ensures KeysAgree(c) ==> Slots(c) && forall i :: 0 <= i < 18 ==> Settled(sl[i])
    {
      hide Raw, SlotOk, Is, Settled, Refilled, Drummed, DrumKey, ViewOk, KslBase, Key, SlotView;
      ghost var sl0 := sl[..];
      for i := 0 to 18
        invariant forall k :: i <= k < 18 ==> sl[k] == sl0[k]
        invariant SlotsRefilled(c, i)
        invariant KeysAgree(c) ==> forall k :: 0 <= k < i ==> Holds(sl[k], c, k) && Settled(sl[k])
      {
        KeyIs(c, i);
        assert SlotOk(c.slots[i]);
        var s := Rebuilt(sl[i], c.slots[i], ViewAt(i), ViewAt(i).kon || Drummed(i), nts);
        sl[i] := s;
      }
    }

    ghost predicate Cleared()
      reads step, sl, ch, cv, mv
    {
      && Sized() && (forall i :: 0 <= i < 36 ==> step[i] == 0) && (forall i :: 0 <= i < 18 ==> sl[i] == NO_SLOT)
      && (forall n :: 0 <= n < 9 ==> cv[n] == NO_VIEW) && (forall n :: 0 <= n < 9 ==> mv[n] == NO_VIEW)
      && (forall n :: 0 <= n < 9 ==> ch[n] == OplChan(0, 0, 0))
    }

    method Clear()
      requires Sized()
      modifies this`rlw, this`lag, this`v0fix, this`test, this`nts, this`bd, this`cb, this`held15, this`held1617
      modifies this`vib, this`tdir, this`tof, this`tstep, this`sub, this`carry, this`egshift, this`eglow, this`lfo
      modifies this`tv, this`T, this`N, this`queue, this`credit, step, sl, ch, cv, mv
      ensures Cleared() && rlw == [0, 0, 0] && v0fix == 0 && lag == NO_LAG
      ensures test == 0 && !nts && bd == 0 && cb == 0 && held15 == 0 && held1617 == 0 && queue == []
      ensures vib == 0 && Counts(Counters(0, 0, 0, false, false, false, 0, false, false, 0, 0, 0))
    {
      hide RomOk, Cleared, Counts;
      ClearArrays();
      queue, credit := [], 0;
      ClearRegisters();
      ClearCounters();
    }

    method ClearRegisters()
      modifies this`rlw, this`lag, this`v0fix, this`test, this`nts, this`bd, this`cb, this`held15, this`held1617
      ensures rlw == [0, 0, 0] && lag == NO_LAG && v0fix == 0
      ensures test == 0 && !nts && bd == 0 && cb == 0 && held15 == 0 && held1617 == 0
    {
      rlw, lag, v0fix, test, nts, bd, cb, held15, held1617 := [0, 0, 0], NO_LAG, 0, 0, false, 0, 0, 0, 0;
    }

    method ClearCounters()
      modifies this`vib, this`tdir, this`tof, this`tstep, this`sub, this`carry, this`egshift, this`eglow, this`lfo
      modifies this`tv, this`T, this`N
      ensures vib == 0 && Counts(Counters(0, 0, 0, false, false, false, 0, false, false, 0, 0, 0))
    {
      SetWaves(Counters(0, 0, 0, false, false, false, 0, false, false, 0, 0, 0));
      SetTimer(Counters(0, 0, 0, false, false, false, 0, false, false, 0, 0, 0));
    }

    method ClearArrays()
      requires Sized()
      modifies step, sl, ch, cv, mv
      ensures Cleared()
    {
      hide RomOk;
      forall i | 0 <= i < 18 { sl[i] := NO_SLOT; }
      forall i | 0 <= i < 36 { step[i] := 0; }
      forall n | 0 <= n < 9 { ch[n] := OplChan(0, 0, 0); }
      forall n | 0 <= n < 9 { cv[n] := NO_VIEW; }
      forall n | 0 <= n < 9 { mv[n] := NO_VIEW; }
    }

    /** As at power-on: nothing queued, nothing lost, and credit for one write. */
    method Reset()
      requires Sized()
      modifies this, step, sl, ch, cv, mv
      ensures Valid() && m == ResetMachine() && xaddr == old(xaddr)
    {
      hide RomOk, TableIdle, Bare, WellFormed, Counts, Latches, AtRest, ResetMachine, Cleared, Queued;
      m := ResetMachine();
      ResetRests();
      ResetFields();
      ClearIdle();
      ghost var s := step[..];
      Silence();
      assert step[..] == s;
      StartFrom();
    }

    method ResetFields()
      requires Sized() && m == ResetMachine()
      modifies this, step, sl, ch, cv, mv
      ensures Cleared() && rlw == [0, 0, 0] && m == old(m) && Queued(m) && xaddr == old(xaddr)
      ensures test == m.chip.test && lag == m.chip.lag && !nts && bd == 0 && vib == m.chip.cnt.vib && v0fix == 0
      ensures Latches(m.chip) && Counts(m.chip.cnt)
    {
      hide RomOk, Cleared, AtRest, WellFormed, ResetMachine;
      Clear();
      drops, tof, N, credit := 0, true, 1, 96;
      ResetFits();
    }

    lemma ResetFits()
      requires queue == [] && credit == 96 && drops == 0 && test == 0 && lag == NO_LAG && cb == 0
      requires held15 == 0 && held1617 == 0 && vib == 0 && Counts(COUNTERS_RESET)
      ensures var m := ResetMachine();
        && Queued(m) && Latches(m.chip) && Counts(m.chip.cnt)
        && test == m.chip.test && lag == m.chip.lag && vib == m.chip.cnt.vib
    {
      ResetCounters();
      hide ResetMachine, Counts;
      assert Queued(ResetMachine()) by { ResetQueue(); }
      assert Latches(ResetMachine().chip) by { ResetLatches(); }
      assert test == ResetMachine().chip.test && lag == ResetMachine().chip.lag by { ResetModes(); }
    }

    /** Every slot released at full attenuation. */
    method Silence()
      requires Cleared() && !nts && bd == 0
      modifies sl
      ensures Bare(ResetMachine().chip)
    {
      hide RomOk;
      forall i | 0 <= i < 18 { sl[i] := sl[i].(level := 0x1FF, stage := Release); }
      ResetSlots();
      hide ResetMachine, UnpackHistory;
      assert UnpackHistory(0) == History(0, 0) by { NoHistory(); }
    }

    /** Once registers and counters are those of machine m, the caches follow. */
    method StartFrom()
      requires Bare(m.chip) && Queued(m) && test == m.chip.test && lag == m.chip.lag
      requires Latches(m.chip) && Counts(m.chip.cnt) && vib == m.chip.cnt.vib && v0fix == 0
      requires TableIdle(step[..], rlw, sub)
      modifies this`dam, this`dvb, this`rhy, sl, ch, cv, mv
      ensures Restored(m.chip) && (AtRest(m) ==> Valid())
    {
      hide RomOk, TableIdle, WellFormed, KeysAgree, Raw, Coherent, HeldOk, Written, Restored, Bit, Queued, QueueOk;
      hide Counts, Latches;
      CountersGood(m.chip);
      ghost var s := step[..];
      Rebuild(m.chip);
      assert step[..] == s;
      if AtRest(m) {
        WrittenStands(m.chip);
      }
    }

    constructor (table: seq<int>)
      requires RomOk(table)
      ensures Valid() && m == ResetMachine() && rom == table && xaddr == PARKED
      ensures fresh(step) && fresh(sl) && fresh(ch) && fresh(cv) && fresh(mv)
    {
      rom := table;
      sl, step, ch := new OplSlot[18](_ => NO_SLOT), new int[36](_ => 0), new OplChan[9](_ => OplChan(0, 0, 0));
      cv, mv := new OplView[9](_ => NO_VIEW), new OplView[9](_ => NO_VIEW);
      xaddr := PARKED;
      new;
      Reset();
    }

    /** A new mapping, which starts the engine afresh. */
    method Map(word: int)
      requires Sized()
      modifies this, step, sl, ch, cv, mv
      ensures Valid() && m == ResetMachine() && xaddr == word
    {
      Reset();
      xaddr := word;
    }

    // ---------------- savestate ----------------

    method PutSlots() returns (out: Bytes)
      requires Stands(m.chip)
      ensures |out| == 216 && forall i :: 0 <= i < 18 ==> SlotSaved(out, 12 * i, m.chip.slots[i])
    {
      hide SlotSaved, Ready, Views, Chans, TableIdle, Counts, RomOk;
      out := [];
      for i := 0 to 18
        invariant |out| == 12 * i && forall k :: 0 <= k < i ==> SlotSaved(out, 12 * k, m.chip.slots[k])
      {
        assert Holds(sl[i], m.chip, i) && SlotOk(m.chip.slots[i]);
        var s := sl[i];
        var x := SlotBytes(s.P, s.level, s.stage, s.regs);
        forall k | 0 <= k < i
          ensures SlotSaved(out + x, 12 * k, m.chip.slots[k])
        {
          SlotShift(out + x, 0, out, 12 * k, m.chip.slots[k]);
        }
        SlotShift(out + x, |out|, x, 0, m.chip.slots[i]);
        out := out + x;
      }
    }

    method PutChans() returns (out: Bytes)
      requires Stands(m.chip)
      ensures |out| == 90 && forall n :: 0 <= n < 9 ==>
        ChanSaved(out, 10 * n, PackHistory(m.chip.hist[n].h1, m.chip.hist[n].h2), m.chip.cv[n], m.chip.mv[n])
    {
      hide ChanSaved, Slots, TableIdle, Counts, RomOk, PackHistory, NewOutput, OldOutput;
      out := [];
      for n := 0 to 9
        invariant |out| == 10 * n && forall k :: 0 <= k < n ==>
          ChanSaved(out, 10 * k, PackHistory(m.chip.hist[k].h1, m.chip.hist[k].h2), m.chip.cv[k], m.chip.mv[k])
      {
        assert ChanHolds(ch[n], m.chip, n) && ViewOk(m.chip.cv[n]) && ViewOk(m.chip.mv[n]);
        PackBack(ch[n].hist);
        var x := ChanBytes(ch[n].hist, cv[n].Regs(), mv[n].Regs());
        forall k | 0 <= k < n
          ensures ChanSaved(out + x, 10 * k, PackHistory(m.chip.hist[k].h1, m.chip.hist[k].h2),
            m.chip.cv[k], m.chip.mv[k])
        {
          ChanShift(out + x, 0, out, 10 * k, PackHistory(m.chip.hist[k].h1, m.chip.hist[k].h2),
            m.chip.cv[k], m.chip.mv[k]);
        }
        ChanShift(out + x, |out|, x, 0, PackHistory(m.chip.hist[n].h1, m.chip.hist[n].h2), m.chip.cv[n], m.chip.mv[n]);
        out := out + x;
      }
    }

    method PutQueue() returns (out: Bytes)
      requires QueueOk(queue) && 0 <= credit < 256 && 0 <= drops < WORD
      ensures |out| == 519 && QueueBytes(out, queue, credit, drops)
    {
      hide U16, U32, IsReg;
      out := Put16(|queue|);
      for k := 0 to 256
        invariant |out| == 2 + 2 * k && out[..2] == Put16(|queue|)
        invariant forall j :: 0 <= j < k && j < |queue| ==> EntrySaved(out, 2 + 2 * j, queue[j])
        invariant forall j :: |queue| <= j < k ==> EntrySaved(out, 2 + 2 * j, NO_WRITE)
      {
        out := out + if k < |queue| then [queue[k].val, queue[k].reg] else [0, 0];
      }
      Field16(out + [credit] + Put32(drops), 0, Put16(|queue|));
      Field32(out + [credit] + Put32(drops), 515, Put32(drops));
      out := out + [credit] + Put32(drops);
    }

    /** The engine stands for machine m, parked or not. */
    ghost predicate Standing()
      reads this, step, sl, ch, cv, mv
    {
      && WellFormed(m.chip) && Stands(m.chip) && HeldOk(m.chip) && Rested() && Queued(m)
      && QueueOk(m.queue) && 72 <= m.credit <= 192 && 0 <= m.drops <= MAX_DROPS
    }

    /** A mapped engine may be saved. */
    lemma ValidStands()
      requires Valid()
      ensures Standing()
    {
      hide Stands, Rested, IsReg, KeysAgree, Coherent, WellFormed, HeldOk;
    }

    /** The engine unmapped: its queue emptied, its credit left (opl_park). */
    method Park()
      requires Valid()
      modifies this`queue, this`xaddr, this`m
      ensures Standing() && m == OplSave.Park(old(m)) && xaddr == PARKED
    {
      hide Stands, Rested, IsReg, KeysAgree, Coherent, WellFormed, HeldOk;
      queue, xaddr, m := [], PARKED, OplSave.Park(m);
    }

    method PutGlobals() returns (regs: Bytes, rest: Bytes)
      requires Standing()
      ensures |regs| == 24 && regs[0] == m.chip.test && regs[1] == Flag(m.chip.nts) && regs[2] == m.chip.bd
      ensures |m.chip.lag| == 6 && regs[3] == LagByte(m.chip.lag) && CountersSaved(regs, 0, m.chip.cnt)
      ensures |rest| == 9 && rest[0] == CymbalLatch(m.chip) && I32(rest, 1) == m.chip.held15
      ensures I32(rest, 5) == m.chip.held1617
    {
      hide CountersSaved, I32, U32, RomOk, TableIdle, Views, Chans, Slots, KeysAgree, Coherent, WellFormed, LagByte;
      CountersGood(m.chip);
      WellSized(m.chip);
      var n := Counters(vib, lfo, tv, tdir, tof, tstep, T, carry, sub, egshift, eglow, N);
      assert n == m.chip.cnt;
      regs := PutCounters(test, nts, bd, lag, n);
      rest := [cb] + PutI32(held15) + PutI32(held1617);
      Field32(rest, 1, PutI32(held15));
      Field32(rest, 5, PutI32(held1617));
    }

    /** The savestate of an engine, mapped or parked: the image of what it stands for. */
    method Save() returns (out: Bytes)
      requires (Valid() || Standing()) && 0 <= xaddr < 0x10000
      ensures Image(out, xaddr, m)
    {
      hide Valid, Standing;
      if Valid() {
        ValidStands();
      }
      out := PutImage();
    }

    method PutImage() returns (out: Bytes)
      requires Standing() && 0 <= xaddr < 0x10000
      ensures Image(out, xaddr, m)
    {
      hide Image, QueueBytes, SlotSaved, ChanSaved, CountersSaved, I32, U32, Stands, KeysAgree, Coherent, WellFormed;
      hide LagByte, CymbalLatch, Rested;
      var head := Put16(xaddr);
      var slots := PutSlots();
      var chans := PutChans();
      var regs, rest := PutGlobals();
      var queue := PutQueue();
      out := head + slots + chans + regs + rest + queue;
      Joined(head, slots, chans, regs, rest, queue);
      Field16(out, 0, head);
      ImageOf(out, slots, chans, regs, rest, queue, xaddr, m);
    }

    method GetSlots(b: Bytes) returns (ok: bool)
      requires Cleared() && |b| == SST_SIZE
      modifies sl
      ensures ok <==> forall i :: 0 <= i < 18 ==> SlotAccepted(b, i)
      ensures ok ==> forall i :: 0 <= i < 18 ==> Raw(sl[i], SavedSlot(b, i))
    {
      hide U16, U32, RomOk, Raw;
      ok := true;
      for i := 0 to 18
        invariant forall k :: i <= k < 18 ==> sl[k] == NO_SLOT
        invariant ok <==> forall k :: 0 <= k < i ==> SlotAccepted(b, k)
        invariant ok ==> forall k :: 0 <= k < i ==> Raw(sl[k], SavedSlot(b, k))
      {
        var o := SlotAt(i);
        sl[i] := NO_SLOT.(P := U32(b, o), level := U16(b, o + 4), stage := StageOf(b[o + 6]),
                          regs := Registers(b[o + 7], b[o + 8], b[o + 9], b[o + 10], b[o + 11]));
        ok := ok && SlotAccepted(b, i);
        if ok {
          SlotRead(sl[i], b, i);
        }
      }
    }

    method GetChans(b: Bytes) returns (ok: bool)
      requires Sized() && |b| == SST_SIZE
      modifies ch, cv, mv
      ensures ok <==> forall n :: 0 <= n < 9 ==> ChanAccepted(b, n)
      ensures forall n :: 0 <= n < 9 ==>
        ch[n].hist == U32(b, ChanAt(n)) && cv[n].Regs() == SavedView(b, ChanAt(n) + 4)
          && mv[n].Regs() == SavedView(b, ChanAt(n) + 7)
    {
      hide U32, RomOk, SavedView, Sign16;
      ok := true;
      for n := 0 to 9
        invariant ok <==> forall k :: 0 <= k < n ==> ChanAccepted(b, k)
        invariant forall k :: 0 <= k < n ==> ch[k].hist == U32(b, ChanAt(k))
        invariant forall k :: 0 <= k < n ==> cv[k].Regs() == SavedView(b, ChanAt(k) + 4)
        invariant forall k :: 0 <= k < n ==> mv[k].Regs() == SavedView(b, ChanAt(k) + 7)
      {
        var o := ChanAt(n);
        ch[n] := OplChan(U32(b, o), 0, 0);
        cv[n] := GetView(b, o + 4);
        mv[n] := GetView(b, o + 7);
        ok := ok && ChanAccepted(b, n);
      }
    }

    method GetGlobals(b: Bytes) returns (ok: bool)
      requires |b| == SST_SIZE
      modifies this`test, this`nts, this`bd, this`lag, this`cb, this`held15, this`held1617
      modifies this`vib, this`lfo, this`tv, this`tdir, this`tof, this`tstep, this`T, this`carry, this`sub
      modifies this`egshift, this`eglow, this`N
      ensures ok <==> GlobalsAccepted(b)
      ensures test == b[308] && nts == (b[309] != 0) && bd == b[310] && lag == LagOf(b[311]) && vib == b[312]
      ensures cb == b[332] && held15 == I32(b, 333) && held1617 == I32(b, 337) && Counts(SavedCounters(b))
    {
      hide I32, LagOf, GlobalsAccepted, SavedCounters, Counts;
      test, nts, bd, lag := b[308], b[309] != 0, b[310], LagOf(b[311]);
      cb, held15, held1617 := b[332], I32(b, 333), I32(b, 337);
      GetCounters(b);
      ok := GlobalsAccepted(b);
    }

    method GetCounters(b: Bytes)
      requires |b| == SST_SIZE
      modifies this`vib, this`lfo, this`tv, this`tdir, this`tof, this`tstep, this`T, this`carry, this`sub
      modifies this`egshift, this`eglow, this`N
      ensures vib == b[312] && Counts(SavedCounters(b))
    {
      var n := SavedCounters(b);
      assert n.vib == b[312];
      hide SavedCounters;
      SetWaves(n);
      SetTimer(n);
    }

    method SetWaves(n: Counters)
      modifies this`vib, this`lfo, this`tv, this`tdir, this`tof, this`tstep
      ensures vib == n.vib && lfo == n.lfo && tv == n.tv && tdir == n.tdir && tof == n.tof && tstep == n.tstep
    {
      vib, lfo, tv, tdir, tof, tstep := n.vib, n.lfo, n.tv, n.tdir, n.tof, n.tstep;
    }

    method SetTimer(n: Counters)
      modifies this`T, this`carry, this`sub, this`egshift, this`eglow, this`N
      ensures T == n.T && carry == n.carry && sub == n.sub && egshift == n.egshift && eglow == n.eglow && N == n.N
    {
      T, carry, sub, egshift, eglow, N := n.T, n.carry, n.sub, n.egshift, n.eglow, n.N;
    }

    /** Whether every modulator view differs from its carrier's only while it lags. */
    method ViewsLag(ghost b: Bytes) returns (ok: bool)
      requires Sized() && |b| == SST_SIZE && lag == LagOf(b[311])
      requires forall n :: 0 <= n < 9 ==>
        cv[n].Regs() == SavedView(b, ChanAt(n) + 4) && mv[n].Regs() == SavedView(b, ChanAt(n) + 7)
      ensures ok <==> forall n :: 0 <= n < 9 ==> LagAccepted(b, n)
    {
      hide RomOk, SavedView, LagOf;
      ok := true;
      for n := 0 to 9
        invariant ok <==> forall k :: 0 <= k < n ==> LagAccepted(b, k)
      {
        var lags := n < 6 && lag[n];
        var good := SameView(mv[n].Regs(), cv[n].Regs(), !lags) || (n < 3 && lags);
        assert good == LagAccepted(b, n);
        ok := ok && good;
      }
    }

    method GetQueue(b: Bytes) returns (ok: bool)
      requires |b| == SST_SIZE
      modifies this`queue, this`credit, this`drops
      ensures ok <==> QueueAccepted(b)
      ensures Queued(SavedMachine(b))
    {
      hide U16, U32, IsReg, SavedChip;
      var len := U16(b, 341);
      ok := len <= QUEUE_SIZE;
      queue := [];
      for k := 0 to 256
        modifies this`queue
        invariant |queue| == if k < len then k else len
        invariant forall j :: 0 <= j < |queue| ==> queue[j] == SavedEntry(b, j)
        invariant ok <==> len <= QUEUE_SIZE && forall j :: 0 <= j < k && j < len ==> IsReg(SavedEntry(b, j).reg)
      {
        if k < len {
          ok := ok && IsReg(SavedEntry(b, k).reg);
          queue := queue + [SavedEntry(b, k)];
        }
      }
      credit, drops := b[855], U32(b, 856);
      ok := ok && 72 <= credit <= (if len > 0 then 192 else 96) && credit % 24 == 0 && drops <= MAX_DROPS;
    }

    /** A savestate read back. One that is short or refused leaves the engine reset; any other leaves
        the machine it holds, its caches rebuilt. */
    method Load(data: Bytes) returns (ok: bool)
      requires Sized()
      modifies this, step, sl, ch, cv, mv
      ensures ok <==> |data| >= SST_SIZE && Accepted(data[..SST_SIZE])
      ensures ok ==> m == SavedMachine(data[..SST_SIZE]) && xaddr == U16(data, 0) && (AtRest(m) ==> Valid())
      ensures ok ==>
        && Restored(m.chip) && Queued(m) && Latches(m.chip) && Counts(m.chip.cnt)
        && test == m.chip.test && lag == m.chip.lag
      ensures !ok ==> Valid() && m == ResetMachine() && xaddr == old(xaddr)
    {
      hide U16, Accepted, SavedMachine, AtRest, Valid, RomOk, ResetMachine, Restored, Latches, Counts, Queued;
      if |data| < SST_SIZE {
        Reset();
        return false;
      }
      var b := data[..SST_SIZE];
      Field16(data, 0, b[..2]);
      Field16(b, 0, b[..2]);
      ok := Read(b);
      if !ok {
        Reset();
      } else {
        xaddr := U16(b, 0);
        Take(b);
      }
    }

    /** Every field from the bytes, and whether they are accepted. */
    method Read(b: Bytes) returns (ok: bool)
      requires Sized() && |b| == SST_SIZE
      modifies this, step, sl, ch, cv, mv
      ensures ok <==> Accepted(b)
      ensures ok ==> HasRead(b)
      ensures xaddr == old(xaddr)
    {
      hide U16, U32, SlotAccepted, ChanAccepted, GlobalsAccepted, LagAccepted, QueueAccepted, RomOk, Raw, SavedView;
      hide Counts, LagOf, Queued, Cleared, SameView, I32, SavedChip, SavedCounters;
      Clear();
      var oks, okc, okg, okl, okq := ReadParts(b);
      ok := (U16(b, 0) == PARKED || BlockOk(U16(b, 0))) && oks && okc && okg && okl && okq;
    }

    ghost predicate ChansRead(b: Bytes)
      requires |b| == SST_SIZE && ch.Length == cv.Length == mv.Length == 9
      reads ch, cv, mv
    {
      hide U32;
      forall n :: 0 <= n < 9 ==>
        && ch[n].hist == U32(b, ChanAt(n))
        && cv[n].Regs() == SavedView(b, ChanAt(n) + 4) && mv[n].Regs() == SavedView(b, ChanAt(n) + 7)
    }

    ghost predicate GlobalsRead(b: Bytes)
      requires |b| == SST_SIZE
      reads this`test, this`nts, this`bd, this`lag, this`vib, this`cb, this`held15, this`held1617
    {
      hide I32, LagOf;
      && test == b[308] && nts == (b[309] != 0) && bd == b[310] && lag == LagOf(b[311]) && vib == b[312]
      && cb == b[332] && held15 == I32(b, 333) && held1617 == I32(b, 337)
    }

    /** The fields of the engine are those of the machine b holds. */
    ghost predicate HasRead(b: Bytes)
      requires |b| == SST_SIZE
      reads this`test, this`nts, this`bd, this`lag, this`vib, this`cb, this`held15, this`held1617, this`v0fix
      reads this`lfo, this`tv, this`tdir, this`tof, this`tstep, this`T, this`carry, this`sub, this`egshift
      reads this`eglow, this`N
      reads this`queue, this`credit, this`drops, this`rlw, step, sl, ch, cv, mv
    {
      && Sized() && v0fix == 0 && TableIdle(step[..], rlw, sub)
      && (forall i :: 0 <= i < 18 ==> Raw(sl[i], SavedSlot(b, i)))
      && ChansRead(b) && GlobalsRead(b) && Counts(SavedCounters(b)) && Queued(SavedMachine(b))
    }

    method ReadParts(b: Bytes) returns (oks: bool, okc: bool, okg: bool, okl: bool, okq: bool)
      requires Cleared() && rlw == [0, 0, 0] && v0fix == 0 && |b| == SST_SIZE
      modifies this`test, this`nts, this`bd, this`lag, this`cb, this`held15, this`held1617, this`queue, this`credit
      modifies this`drops
      modifies this`vib, this`lfo, this`tv, this`tdir, this`tof, this`tstep, this`T, this`carry, this`sub
      modifies this`egshift, this`eglow, this`N
      modifies sl, ch, cv, mv
      ensures oks <==> forall i :: 0 <= i < 18 ==> SlotAccepted(b, i)
      ensures okc <==> forall n :: 0 <= n < 9 ==> ChanAccepted(b, n)
      ensures okg <==> GlobalsAccepted(b)
      ensures okl <==> forall n :: 0 <= n < 9 ==> LagAccepted(b, n)
      ensures okq <==> QueueAccepted(b)
      ensures oks ==> HasRead(b)
    {
      hide U16, U32, SlotAccepted, ChanAccepted, LagAccepted, GlobalsAccepted, QueueAccepted, RomOk, Raw, SavedView;
      hide Counts, LagOf, Queued, I32, SavedChip, SavedCounters, TableIdle;
      ClearIdle();
      ghost var s := step[..];
      oks := GetSlots(b);
      okc := GetChans(b);
      okg := GetGlobals(b);
      okl := ViewsLag(b);
      okq := GetQueue(b);
      assert step[..] == s;
    }

    /** The rebuild that ends a load. */
    method Take(b: Bytes)
      requires |b| == SST_SIZE && Accepted(b) && HasRead(b)
      modifies this`m, this`dam, this`dvb, this`rhy, sl, ch, cv, mv
      ensures m == SavedMachine(b) && Restored(m.chip) && (AtRest(m) ==> Valid())
      ensures Queued(m) && Latches(m.chip) && Counts(m.chip.cnt) && test == m.chip.test && lag == m.chip.lag
    {
      hide Accepted, RomOk, Latches, Bare, Counts, Queued, TableIdle, AtRest, WellFormed, SavedMachine, HasRead;
      hide Valid, Restored;
      ReadStands(b);
      m := SavedMachine(b);
      StartFrom();
    }

    lemma ReadStands(b: Bytes)
      requires |b| == SST_SIZE && Accepted(b) && HasRead(b)
      ensures var m := SavedMachine(b);
        && Bare(m.chip) && Queued(m) && test == m.chip.test && lag == m.chip.lag
        && Latches(m.chip) && Counts(m.chip.cnt) && vib == m.chip.cnt.vib && v0fix == 0 && TableIdle(step[..], rlw, sub)
    {
      hide U16, U32, SlotAccepted, ChanAccepted, LagAccepted, GlobalsAccepted, RomOk, Raw, SavedView, Counts, LagOf;
      hide Queued;
      hide SavedCounters, TableIdle, AtRest, WellFormed, SavedSlot, UnpackHistory, SavedMachine, CymbalLatch, I32;
      AcceptedMachine(b);
      SavedArrays(b);
      assert Bare(SavedMachine(b).chip);
      SavedGlobals(b);
    }

    lemma ClearIdle()
      requires Cleared() && rlw == [0, 0, 0]
      ensures forall sub' :: TableIdle(step[..], rlw, sub')
    {
    }
  }
}
