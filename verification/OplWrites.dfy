/** What the registers are (sections 0, 5.1 and 7 of src/core/aud/opl.md) and how the chip's clocks run
    (section 1.3), in plain arithmetic. */
module OplWrites {
  import opened Common
  import opened OplSpec
  import opened OplCaches
  import opened OplRuns
  import opened OplLaws

  // ---------------- operators and channels ----------------

  /** Operators go by threes: a channel's first, and three on its second, which hear the channel's registers
      through views of their own. */
  lemma SeenLaw(c: Chip, i: int)
    requires WellFormed(c) && 0 <= i < 18
    ensures SlotView(c, i) == if i % 6 < 3 then c.mv[3 * (i / 6) + i % 3] else c.cv[3 * (i / 6) + i % 3]
  {
    hide ViewOk, SlotOk, Out13;
  }

  /** An operator is keyed by its channel, and with rhythm operators 12 to 17 by a drum's bit as well: the bass
      drum's two, the hi-hat, the tom, the snare and the cymbal. */
  lemma KeyLaw(c: Chip, i: int)
    requires WellFormed(c) && 0 <= i < 18
    ensures var drum := if i == 12 || i == 15 then c.bd / 16 % 2 else if i == 13 then c.bd % 2
                        else if i == 14 then c.bd / 4 % 2 else if i == 16 then c.bd / 8 % 2
                        else if i == 17 then c.bd / 2 % 2 else 0;
      Key(c, i) <==> SlotView(c, i).kon || (c.bd / 32 % 2 == 1 && drum == 1)
  {
    hide WellFormed, SlotView;
  }

  /** The address of operator i in a bank of operator registers. */
  function Offset(i: int): (o: int)
    requires 0 <= i < 18
    ensures 0 <= o < 22
  {
    i + 2 * (i / 6)
  }

  /** The addresses the engine acts on, and no other: three by themselves, five banks of eighteen operators,
      and three of fourteen channel addresses. */
  lemma AddressLaw(reg: u8)
    ensures IsReg(reg) <==>
            || reg == 1 || reg == 8 || reg == 189
            || (exists i :: 0 <= i < 18 && OperatorAddress(reg, i))
            || (160 <= reg < 208 && reg % 16 != 12 && reg % 16 != 13)
  {
    if IsOperatorReg(reg) {
      var i := OffsetSlot(reg);
      OffsetIs(reg);
      assert OperatorAddress(reg, i);
    }
    forall i | 0 <= i < 18 && OperatorAddress(reg, i)
      ensures IsOperatorReg(reg)
    {
      AddressOk(reg, i);
    }
  }

  predicate OperatorAddress(reg: u8, i: int)
    requires 0 <= i < 18
  {
    reg - Offset(i) in {0x20, 0x40, 0x60, 0x80, 0xE0}
  }

  lemma OffsetIs(reg: u8)
    requires IsOperatorReg(reg)
    ensures OperatorAddress(reg, OffsetSlot(reg))
  {
    var o := reg % 32;
    assert o / 8 in {0, 1, 2} && o == o / 8 * 8 + o % 8;
    assert (o - 2 * (o / 8)) / 6 == o / 8;
    assert reg - o in {0x20, 0x40, 0x60, 0x80, 0xE0};
  }

  lemma AddressOk(reg: u8, i: int)
    requires 0 <= i < 18 && OperatorAddress(reg, i)
    ensures IsOperatorReg(reg) && OffsetSlot(reg) == i
  {
    var o, q, r := Offset(i), i / 6, i % 6;
    var base := reg - o;
    var k := if base == 0xE0 then 7 else if base == 0x80 then 4 else if base == 0x60 then 3
      else if base == 0x40 then 2 else 1;
    assert base == 32 * k && i == 6 * q + r && o == 8 * q + r;
    hide Offset;
    ModOf(32, k, o);
    ModOf(8, 4 * k + q, r);
    QuotientIs(o, 8, q, r);
  }

  // ---------------- writes ----------------

  /** A write to an operator's address sets that register of that operator and nothing else; the waveform only
      while test bit 5 is up. */
  lemma OperatorWriteLaw(c: Chip, i: int, base: int, d: u8)
    requires WellFormed(c) && 0 <= i < 18 && base in {0x20, 0x40, 0x60, 0x80, 0xE0}
    ensures var o := c.slots[i].regs;
      IsReg(base + Offset(i)) && Apply(c, Write(base + Offset(i), d)) ==
      c.(slots := c.slots[i := c.slots[i].(regs :=
        if base == 0x20 then o.(r20 := d) else if base == 0x40 then o.(r40 := d) else if base == 0x60 then o.(r60 := d)
        else if base == 0x80 then o.(r80 := d) else if c.test / 32 % 2 == 1 then o.(ws := d % 4) else o)])
  {
    var reg: u8 := base + Offset(i);
    assert OperatorAddress(reg, i);
    AddressOk(reg, i);
    assert !IsChannelReg(reg) && reg != 0xBD && reg != 1 && reg != 8;
    hide WellFormed, OffsetSlot, IsOperatorReg, Offset;
  }

  /** What a channel's three registers hold: the F-number's low eight bits; its top two, the octave and the
      key; the connection and the feedback. */
  function ChannelSet(v: View, bank: int, d: u8): View
    requires bank in {0xA0, 0xB0, 0xC0}
  {
    if bank == 0xA0 then v.(fnum := v.fnum / 256 * 256 + d)
    else if bank == 0xB0 then View(v.fnum % 256 + d % 4 * 256, d / 4 % 8, d / 32 % 2 == 1, v.con, v.fb)
    else v.(con := d % 2 == 1, fb := d / 2 % 8)
  }

  /** A write to a channel reaches its second operator at once. Its first follows a sample later in channels 0
      to 2, in channels 3 to 5 as to the feedback, and at once in all else. */
  lemma ChannelWriteLaw(c: Chip, ch: int, bank: int, d: u8)
    requires WellFormed(c) && 0 <= ch < 9 && bank in {0xA0, 0xB0, 0xC0}
    ensures var w := ChannelSet(c.cv[ch], bank, d);
      IsReg(bank + ch) && Apply(c, Write(bank + ch, d)) ==
      if ch < 3 then c.(cv := c.cv[ch := w], lag := c.lag[ch := true])
      else if bank == 0xC0 && ch < 6 then
        c.(cv := c.cv[ch := w], mv := c.mv[ch := c.mv[ch].(con := d % 2 == 1)], lag := c.lag[ch := true])
      else c.(cv := c.cv[ch := w], mv := c.mv[ch := ChannelSet(c.mv[ch], bank, d)])
  {
    var reg: u8 := bank + ch;
    assert reg % 16 == ch && IsChannelReg(reg) && !IsAlias(reg) && TargetChannel(reg) == ch;
    assert reg != 0xBD;
    hide WellFormed, IsOperatorReg, TargetChannel, IsChannelReg;
  }

  /** The same channels' other addresses: 9 to 11 are channels 0 to 2, and reach both operators at once; 14
      and 15 are channels 0 and 1. */
  lemma AliasLaw(c: Chip, low: int, bank: int, d: u8)
    requires WellFormed(c) && low in {9, 10, 11, 14, 15} && bank in {0xA0, 0xB0, 0xC0}
    ensures IsReg(bank + low)
    ensures low >= 14 ==> Apply(c, Write(bank + low, d)) == Apply(c, Write(bank + low - 14, d))
    ensures low <= 11 ==>
      var ch := low - 9;
      Apply(c, Write(bank + low, d)) ==
      c.(cv := c.cv[ch := ChannelSet(c.cv[ch], bank, d)], mv := c.mv[ch := ChannelSet(c.mv[ch], bank, d)])
  {
    var reg: u8 := bank + low;
    assert reg % 16 == low && IsChannelReg(reg) && TargetChannel(reg) == (if low >= 14 then low - 14 else low - 9);
    assert IsAlias(reg) <==> low <= 11;
    assert reg != 0xBD;
    if low >= 14 {
      ChannelWriteLaw(c, low - 14, bank, d);
    }
    hide WellFormed, IsOperatorReg, TargetChannel, IsChannelReg, IsAlias;
  }

  /** The rest: the test register, the note select, and the depths, rhythm and drums; turning rhythm on takes
      two bits of the first operator's phase for the cymbal's. */
  lemma GlobalWriteLaw(c: Chip, d: u8)
    requires WellFormed(c)
    ensures Apply(c, Write(1, d)) == c.(test := d)
    ensures Apply(c, Write(8, d)) == c.(nts := d / 64 % 2 == 1)
    ensures var p := c.slots[0].phase / 512;
      Apply(c, Write(189, d)) ==
      if c.bd / 32 % 2 == 0 && d / 32 % 2 == 1 then c.(bd := d, c3 := p / 8 % 2 == 1, c5 := p / 32 % 2 == 1)
      else c.(bd := d)
  {
    assert SlotOk(c.slots[0]);
    assert (c.slots[0].phase / 512) % 1024 == c.slots[0].phase / 512;
    hide WellFormed;
  }

  // ---------------- the clocks ----------------

  /** One sample of the counters. Test bit 7 holds the slow ones at their start and bit 3 hurries them; the
      timer counts every second sample and once more after it wraps, and is read when it has. */
  lemma CountersLaw(n: Counters, test: u8)
    requires CountersOk(n)
    ensures var r := CountersNext(n, test);
      var hold, hurry := test >= 128, test / 8 % 2 == 1;
      && r.lfo == (if hold || n.lfo == 1023 then 0 else n.lfo + 1)
      && r.vib == (if hold then 0 else if hurry || n.lfo == 1023 then (if n.vib == 7 then 0 else n.vib + 1) else n.vib)
      && (r.tstep <==> !hold && n.lfo % 64 == 63) && r.sub == !n.sub
      && (if n.carry || n.sub then r.T == (if n.T == 0x3FFFF then 0 else n.T + 1) && (r.carry <==> n.T == 0x3FFFF)
          else r.T == n.T && !r.carry)
      && (n.sub ==> r.eglow == r.T % 4 && r.egshift == ShiftOf(r.T))
      && (!n.sub ==> r.eglow == n.eglow && r.egshift == n.egshift)
      && r.tv == (if hold then 0 else if !(n.tstep || hurry) then n.tv
                  else if Downward(n) then (if n.tv == 0 then 511 else n.tv - 1)
                  else if n.tv == 511 then 0
                  else n.tv + 1)
      && (!hold ==> (r.tdir <==> Downward(n))) && (hold ==> !r.tdir) && r.N == NoiseSteps(n.N, hold, 18)
  {
    hide NoiseSteps, TrailingZeros, TremoloTurn;
  }

  // ---------------- the pace ----------------

  /** What one sample does to the queue. Its oldest write is taken when no write to channels 0 to 2 is still on
      its way to their first operators and the credit is 96 or more, at a cost of 96; every sample earns 72, up
      to 192 while a write waits and up to 96 otherwise. */
  lemma CommitLaw(m: Machine)
    requires AtRest(m)
    ensures |m.chip.lag| == 6
    ensures var takes := !m.chip.lag[0] && !m.chip.lag[1] && !m.chip.lag[2] && m.credit >= 96 && |m.queue| > 0;
      var left := m.credit - (if takes then 96 else 0) + 72;
      var most := if |m.queue| > (if takes then 1 else 0) then 192 else 96;
      && Commit(m).queue == (if takes then m.queue[1..] else m.queue)
      && Commit(m).credit == (if left > most then most else left) && Commit(m).drops == m.drops
      && WellFormed(Follow(m.chip)) && (takes ==> IsReg(m.queue[0].reg))
      && Commit(m).chip == (if takes then Apply(Follow(m.chip), m.queue[0]) else Follow(m.chip))
  {
    CommitStarts(m);
    hide Apply, Follow, WellFormed, KeysAgree, Coherent, HeldOk, IsReg;
  }

  /** What is late arrives: all of channels 0 to 2, and the feedback of 3 to 5. */
  lemma FollowLaw(c: Chip, ch: int)
    requires WellFormed(c) && 0 <= ch < 9
    ensures var r := Follow(c);
      && r.lag == [false, false, false, false, false, false] && r.cv == c.cv && |r.mv| == 9
      && r.mv[ch] == (if ch < 3 && c.lag[ch] then c.cv[ch]
                      else if 3 <= ch < 6 && c.lag[ch] then c.mv[ch].(fb := c.cv[ch].fb) else c.mv[ch])
      && r == c.(mv := r.mv, lag := r.lag)
  {
    hide ViewOk, SlotOk, Out13;
  }

  /** The counters n samples after a reset. */
  function Clock(n: nat): Counters { if n == 0 then COUNTERS_RESET else CountersNext(Clock(n - 1), 0) }

  /** A walk up to 105 and back. */
  function Triangle(u: nat): int
    requires u < 210
  {
    if u <= 105 then u else 210 - u
  }

  /** Steps of the tremolo in n samples: one in every 64, the first in the sample after the 64th. */
  function Swings(n: nat): nat { if n == 0 then 0 else (n - 1) / 64 }

  /** The way the tremolo goes next. */
  predicate Downward(n: Counters) { if TremoloTurn(n.tv % 128) && !n.tof then !n.tdir else n.tdir }

  lemma TurnIs(tv: int)
    requires 0 <= tv <= 105
    ensures TremoloTurn(tv % 128) <==> tv == 0 || tv == 105
  {
    assert tv % 128 == tv;
    if tv < 64 {
    } else if tv < 96 {
    } else {
      assert tv == 96 || tv == 97 || tv == 98 || tv == 99 || tv == 100 || tv == 101 || tv == 102 || tv == 103
        || tv == 104 || tv == 105;
    }
  }

  /** A step of the triangle. */
  lemma SwingStep(n: Counters, u: nat)
    requires u < 210 && n.tv == Triangle(u) && (Downward(n) <==> u >= 105)
    ensures var r := TremoloNext(n, 0);
      var v := if !n.tstep then u else if u == 209 then 0 else u + 1;
      r.tv == Triangle(v) && (Downward(r) <==> v >= 105)
  {
    TurnIs(n.tv);
    var v := if !n.tstep then u else if u == 209 then 0 else u + 1;
    TurnIs(Triangle(v));
    hide TremoloTurn;
    assert (n.tv + 1) % 512 == n.tv + 1 && (n.tv > 0 ==> (n.tv - 1) % 512 == n.tv - 1);
  }

  /** Where everything stands n samples after a reset: the low-frequency counter has counted them; the vibrato
      steps with every 1024; the tremolo's triangle with every 64; and the envelope timer with every second. */
  lemma {:induction false} ClockLaw(n: nat)
    ensures var k := Clock(n);
      && k.lfo == n % 1024 && k.vib == n / 1024 % 8 && k.tv == Triangle(Swings(n) % 210)
      && (Downward(k) <==> Swings(n) % 210 >= 105) && (k.tstep <==> n > 0 && n % 64 == 0) && (k.sub <==> n % 2 == 1)
    ensures n < 0x8_0000 ==> Clock(n).T == n / 2 && !Clock(n).carry && TicksAt(Clock(n), n / 2)
    decreases n
  {
    hide *;
    if n == 0 {
      ClockStart();
    } else {
      ClockLaw(n - 1);
      ClockStep(n);
      SlowNext(Clock(n - 1), n - 1);
      TimerNext(Clock(n - 1), n - 1);
    }
  }

  /** Where the slow counters stand a sample later. */
  lemma SlowNext(n: Counters, k: nat)
    requires n.lfo == k % 1024 && n.vib == k / 1024 % 8 && n.tv == Triangle(Swings(k) % 210)
    requires (Downward(n) <==> Swings(k) % 210 >= 105) && (n.tstep <==> k > 0 && k % 64 == 0) && (n.sub <==> k % 2 == 1)
    ensures var r := CountersEnd(TremoloNext(n, 0), 0);
      && r.lfo == (k + 1) % 1024 && r.vib == (k + 1) / 1024 % 8 && r.tv == Triangle(Swings(k + 1) % 210)
      && (Downward(r) <==> Swings(k + 1) % 210 >= 105) && (r.tstep <==> (k + 1) % 64 == 0)
      && (r.sub <==> (k + 1) % 2 == 1)
  {
    hide *;
    var u := Swings(k) % 210;
    SwingStep(n, u);
    SwingsNext(k);
    var t := TremoloNext(n, 0);
    TremoloSame(n);
    EndKeeps(t);
    EndCounts(t);
    Counts(k);
  }

  lemma EndCounts(n: Counters)
    ensures var r := CountersEnd(n, 0);
      && r.lfo == (n.lfo + 1) % 1024 && r.vib == (n.vib + if n.lfo == 1023 then 1 else 0) % 8
      && (r.tstep <==> n.lfo % 64 == 63) && r.sub == !n.sub
  {
    hide NoiseSteps, TrailingZeros;
  }

  lemma ClockStart()
    ensures var k := Clock(0);
      && k == COUNTERS_RESET && k.tv == Triangle(Swings(0) % 210) && !Downward(k) && Swings(0) == 0 && TicksAt(k, 0)
      && k.lfo == 0 && k.vib == 0 && !k.tstep && !k.sub && k.T == 0 && !k.carry
  {
    TurnIs(0);
    assert ShiftOf(0) == 0;
    hide ShiftOf, TremoloTurn;
  }

  lemma ClockStep(n: nat)
    requires n > 0
    ensures Clock(n) == CountersEnd(TremoloNext(Clock(n - 1), 0), 0)
  {
    hide CountersEnd, TremoloNext;
  }

  lemma TremoloSame(n: Counters)
    ensures var r := TremoloNext(n, 0);
      r.lfo == n.lfo && r.vib == n.vib && r.T == n.T && r.carry == n.carry && r.sub == n.sub && r.egshift == n.egshift
      && r.eglow == n.eglow
  {
  }

  lemma EndKeeps(n: Counters)
    ensures var r := CountersEnd(n, 0); r.tv == n.tv && (Downward(r) <==> Downward(n))
  {
    hide TremoloTurn;
  }

  lemma SwingsNext(k: nat)
    ensures var u := Swings(k) % 210;
      Swings(k + 1) % 210 == if !(k > 0 && k % 64 == 0) then u else if u == 209 then 0 else u + 1
  {
    if k > 0 {
      assert k / 64 == (k - 1) / 64 + (if k % 64 == 0 then 1 else 0);
    }
  }

  lemma Counts(k: nat)
    ensures (k + 1) % 1024 == (k % 1024 + 1) % 1024
    ensures (k + 1) / 1024 % 8 == (k / 1024 % 8 + if k % 1024 == 1023 then 1 else 0) % 8
    ensures ((k % 1024) % 64 == 63 <==> (k + 1) % 64 == 0) && (k % 2 == 1 <==> (k + 1) % 2 == 0)
  {
  }

  lemma TimerNext(n: Counters, k: nat)
    requires n.sub <==> k % 2 == 1
    requires k < 0x8_0000 ==> n.T == k / 2 && !n.carry && TicksAt(n, k / 2)
    ensures var r := CountersEnd(TremoloNext(n, 0), 0);
      k + 1 < 0x8_0000 ==> r.T == (k + 1) / 2 && !r.carry && TicksAt(r, (k + 1) / 2)
  {
    hide TremoloTurn, NoiseSteps, TrailingZeros;
    if k + 1 < 0x8_0000 {
      assert (k + 1) / 2 == k / 2 + (if k % 2 == 1 then 1 else 0) < 0x40000;
    }
  }

  /** A machine left alone after a reset goes by that clock. */
  lemma {:induction false} LeftAlone(m: Machine, rom: seq<int>, k: nat, n: nat)
    requires AtRest(m) && RomOk(rom) && m.queue == [] && m.chip.test == 0 && m.chip.cnt == Clock(k)
    ensures Idle(m, rom, n).chip.cnt == Clock(k + n)
    decreases n
  {
    hide AtRest, RomOk, Clock, Sampled, WellFormed;
    if n > 0 {
      AloneStep(m, rom, k);
      LeftAlone(Sampled(m, rom), rom, k + 1, n - 1);
    }
  }

  lemma AloneStep(m: Machine, rom: seq<int>, k: nat)
    requires AtRest(m) && RomOk(rom) && m.queue == [] && m.chip.test == 0 && m.chip.cnt == Clock(k)
    ensures var r := Sampled(m, rom); r.queue == [] && r.chip.test == 0 && r.chip.cnt == Clock(k + 1)
  {
    CommitClocks(m);
    CommitAlone(m);
    RenderClocks(Commit(m).chip, rom);
    SampleQueue(m, rom);
    hide AtRest, RomOk, Commit, Rendered, CountersNext, Takes;
  }

  lemma CommitAlone(m: Machine)
    requires AtRest(m) && m.queue == []
    ensures Commit(m).chip.test == m.chip.test && |m.chip.lag| == 6 && !OplSpec.Takes(m)
  {
    RestLag(m);
    hide WellFormed, KeysAgree, Coherent, HeldOk, Apply;
  }

  /** The counters of a machine n samples after its reset. */
  lemma ResetClock(rom: seq<int>, n: nat)
    requires RomOk(rom)
    ensures AtRest(ResetMachine()) && Idle(ResetMachine(), rom, n).chip.cnt == Clock(n)
  {
    hide *;
    ClockStart();
    ResetRests();
    ResetCounters();
    ResetModes();
    ResetQueue();
    LeftAlone(ResetMachine(), rom, 0, n);
  }

  /** The noise is a shift register of 23 bits fed the sum of its top bit and its ninth, or a one when it has
      none, and moves eighteen times a sample. */
  lemma NoiseLaw(N: bv32)
    requires N < 0x80_0000
    ensures var r := NoiseStep(N, false);
      && r < 0x80_0000 && r >> 1 == N & 0x3F_FFFF
      && (r & 1 == 1 <==> N == 0 || (N & 0x40_0000 != 0) != (N & 0x100 != 0))
  {
  }

  // ---------------- the queue ----------------

  /** A write to a register waits its turn while fewer than 256 do, and else is counted, up to 2^31 - 1; to any
      other address it does nothing. */
  lemma PushLaw(m: Machine, w: Write)
    ensures Push(m, w) ==
            if !IsReg(w.reg) then m
            else if |m.queue| < 256 then m.(queue := m.queue + [w])
            else m.(drops := if m.drops < 2147483647 then m.drops + 1 else m.drops)
  {
    hide IsReg;
  }
}
