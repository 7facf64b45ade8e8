/** A queue of registers without their values (aud_oq of src/core/aud/mix.c), which keeps step with an
    engine's own: its length, its pace and its holds. */
module OplMirror {
  import opened Common
  import opened OplSpec
  import opened OplRules
  import opened OplRuns

  /** What the machine keeps of the queue: registers without values. */
  datatype Oq = Oq(ring: seq<u8>, late: bool, credit: int)

  function Regs(q: seq<Write>): (r: seq<u8>)
    ensures |r| == |q| && forall i :: 0 <= i < |q| ==> r[i] == q[i].reg
  {
    seq(|q|, i requires 0 <= i < |q| => q[i].reg)
  }

  function Shadow(m: Machine): Oq
    requires |m.chip.lag| == 6
  {
    Oq(Regs(m.queue), LateHalf(m.chip.lag), m.credit)
  }

  /** The writes after which the queue waits a sample (opl_is_late). */
  predicate IsLate(reg: u8) {
    var g, lo := reg / 16, reg % 16;
    0xA <= g <= 0xC && (lo <= 2 || lo >= 14)
  }

  /** One sample of the machine's queue. */
  function OqTick(q: Oq): Oq {
    var takes := !q.late && q.credit >= 96 && |q.ring| > 0;
    var ring := if takes then q.ring[1..] else q.ring;
    var credit := (if takes then q.credit - 96 else q.credit) + 72;
    var cap := if |ring| > 0 then 192 else 96;
    Oq(ring, takes && IsLate(q.ring[0]), if credit > cap then cap else credit)
  }

  function OqTicks(q: Oq, n: nat): Oq
    decreases n
  {
    if n == 0 then q else OqTicks(OqTick(q), n - 1)
  }

  predicate OqIdle(q: Oq) { q.ring == [] && !q.late && q.credit == 96 }

  lemma {:induction false} IdleStays(q: Oq, n: nat)
    requires OqIdle(q)
    ensures OqTicks(q, n) == q
    decreases n
  {
    if n > 0 {
      assert OqTick(q) == q;
      IdleStays(q, n - 1);
    }
  }

  /** Exactly the writes opl_is_late names leave a late half behind. */
  lemma LateIsLag(c: Chip, w: Write)
    requires WellFormed(c) && IsReg(w.reg) && c.lag == NO_LAG
    ensures LateHalf(Apply(c, w).lag) <==> IsLate(w.reg)
  {
    hide WriteView, WriteRegisters, Bit, ViewOk, SlotOk, Out13;
    if IsChannelReg(w.reg) && w.reg != 0xBD {
      var ch := TargetChannel(w.reg);
      assert Apply(c, w) == ChannelWrite(c, w.reg, w.val);
      if ch < 3 && !IsAlias(w.reg) {
        assert c.lag[ch := true][ch];
      }
    } else {
      assert Apply(c, w).lag == c.lag;
    }
  }

  /** The machine's step and opl_commit's agree. */
  lemma TickIsSample(m: Machine, rom: seq<int>)
    requires AtRest(m) && RomOk(rom)
    ensures |m.chip.lag| == 6 && |Sampled(m, rom).chip.lag| == 6
    ensures Shadow(Sampled(m, rom)) == OqTick(Shadow(m))
    ensures Sampled(m, rom).drops == m.drops
  {
    hide WellFormed, IsReg, Coherent, KeysAgree, Rendered, RomOk, Accumulator, HeldOk, Apply, IsLate;
    RestLag(m);
    RestLag(Sampled(m, rom));
    CommitStarts(m);
    RenderSame(Commit(m).chip, rom);
    if Takes(m) {
      LateIsLag(Follow(m.chip), m.queue[0]);
    }
  }

  /** However many samples it takes at once, the machine's queue is the chip's. */
  lemma {:induction false} TicksAreSamples(m: Machine, n: nat, rom: seq<int>)
    requires AtRest(m) && RomOk(rom)
    ensures |m.chip.lag| == 6 && |Idle(m, rom, n).chip.lag| == 6
    ensures Shadow(Idle(m, rom, n)) == OqTicks(Shadow(m), n) && Idle(m, rom, n).drops == m.drops
    decreases n
  {
    hide Sampled, AtRest, RomOk, Shadow, OqTick;
    RestLag(m);
    if n > 0 {
      TickIsSample(m, rom);
      TicksAreSamples(Sampled(m, rom), n - 1, rom);
    }
  }

  lemma {:induction false} IdleMore(m: Machine, n: nat, rom: seq<int>)
    requires AtRest(m) && RomOk(rom)
    ensures Idle(m, rom, n + 1) == Sampled(Idle(m, rom, n), rom)
    decreases n
  {
    hide Sampled, AtRest, RomOk;
    if n > 0 {
      IdleMore(Sampled(m, rom), n - 1, rom);
    }
  }

  /** Two machines that differ in their drops alone. */
  predicate Alike(a: Machine, b: Machine) { a.(drops := 0) == b.(drops := 0) }

  lemma SampledAlike(a: Machine, b: Machine, rom: seq<int>)
    requires AtRest(a) && AtRest(b) && RomOk(rom) && Alike(a, b)
    ensures Alike(Sampled(a, rom), Sampled(b, rom))
  {
    hide WellFormed, KeysAgree, Coherent, Apply, Follow, Rendered, IsReg, Accumulator, HeldOk;
  }

  /** A machine's queue is the shadow of any machine alike, and keeps or drops a write as it does. */
  lemma PushAlike(a: Machine, b: Machine, w: Write)
    requires AtRest(a) && AtRest(b) && Alike(a, b) && IsReg(w.reg) && |a.queue| < QUEUE_SIZE
    ensures Alike(Push(a, w), Push(b, w)) && Push(a, w).drops == a.drops
    ensures Regs(Push(b, w).queue) == Regs(b.queue) + [w.reg]
  {
    hide WellFormed, KeysAgree, Coherent, IsReg, HeldOk;
  }

  lemma {:induction false} IdleAlike(a: Machine, b: Machine, n: nat, rom: seq<int>)
    requires AtRest(a) && AtRest(b) && RomOk(rom) && Alike(a, b)
    ensures Alike(Idle(a, rom, n), Idle(b, rom, n))
    decreases n
  {
    hide AtRest, RomOk, Sampled, Alike;
    if n > 0 {
      SampledAlike(a, b, rom);
      IdleAlike(Sampled(a, rom), Sampled(b, rom), n - 1, rom);
    }
  }

  lemma TakenRests(d: Machine)
    requires AtRest(d)
    ensures AtRest(d.(drops := 0))
  {
    hide WellFormed, KeysAgree, Coherent, IsReg, HeldOk;
  }

  lemma ShadowPush(d: Machine, w: Write)
    requires AtRest(d) && IsReg(w.reg)
    ensures |d.chip.lag| == 6 && |Push(d, w).chip.lag| == 6 && |d.queue| <= QUEUE_SIZE
    ensures Shadow(Push(d, w)) ==
            if |d.queue| < QUEUE_SIZE then Shadow(d).(ring := Shadow(d).ring + [w.reg]) else Shadow(d)
  {
    hide KeysAgree, Coherent, IsReg, HeldOk;
  }

  lemma ShadowReset()
    ensures |ResetMachine().chip.lag| == 6 && Shadow(ResetMachine()) == Oq([], false, 96) && ResetMachine().drops == 0
  {
  }
}
