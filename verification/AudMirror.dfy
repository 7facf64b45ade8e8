/** The machine's side and the render's side of the mix (src/core/aud/mix.c), with aud_off at 0: what the
    machine answers at once from its own counts, the ring of stamped events, and the render that takes
    them later. The PSG and the bell are not part of it. */
module AudMirror {
  import opened Common
  import opened OplSpec
  import opened OplRuns
  import opened OplMirror
  import opened Rsmp
  import opened Pcm
  import opened AudSound

  const STAMP := 0x1_0000_0000  // stamps are 32 bits of the sample's index
  const HALF := 0x8000_0000
  const EV_SIZE := 65536
  const BLOCK := 256            // the OPL2's registers in XRAM

  const EV_OPL := 0x02
  const EV_OPL_MAP := 0x10
  const EV_OPEN := 0x20
  const EV_DATA := 0x20         // and the number of bytes
  const EV_CLEAR := 0x24
  const EV_CLOSE := 0x25

  /** A change as the ring holds it. */
  datatype AudEv = AudEv(at: int, addr: int, val: u8, kind: int)

  /** What the render makes of an event (aud_apply). */
  function Decoded(addr: int, val: u8, kind: int): Change {
    if kind == EV_OPL_MAP then Map(addr)
    else if kind == EV_OPEN then Opened(Fmt(addr, if val % 2 == 1 then 16 else 8, if val / 2 % 2 == 1 then 2 else 1))
    else if EV_DATA < kind <= EV_DATA + 3 then Data([addr % 256, addr / 256 % 256, val][..kind - EV_DATA])
    else if kind == EV_CLEAR then Emptied
    else if kind == EV_CLOSE then Closed
    else Put(Write(addr % 256, val))
  }

  function Signed32(x: int): int {
    var u := x % STAMP;
    if u >= HALF then u - STAMP else u
  }

  /** Comparing 32-bit stamps is comparing samples, within half their range. */
  lemma StampOrder(made: nat, at: nat)
    requires made <= at < made + HALF
    ensures Signed32(made % STAMP - at % STAMP) >= 0 <==> at <= made
  {
    var a, b := made / STAMP, at / STAMP;
    assert made == STAMP * a + made % STAMP && at == STAMP * b + at % STAMP;
    assert b == a || b == a + 1;
  }

  lemma StampNext(made: nat)
    ensures (made % STAMP + 1) % STAMP == (made + 1) % STAMP
    ensures Signed32(made % STAMP - made % STAMP) == 0 && Signed32(made % STAMP - (made + 1) % STAMP) < 0
  {
    var a := made / STAMP;
    assert made == STAMP * a + made % STAMP;
    assert (made + 1) % STAMP == if made % STAMP + 1 == STAMP then 0 else made % STAMP + 1;
  }

  /** What is left of p. */
  predicate Suffix(p: seq<Timed>, q: seq<Timed>) { |q| <= |p| && q == p[|p| - |q|..] }

  lemma AllIsSuffix(p: seq<Timed>)
    ensures Suffix(p, p)
  {
    assert p[0..] == p;
  }

  lemma SuffixJoins(p: seq<Timed>, q: seq<Timed>, r: seq<Timed>)
    requires Suffix(p, q) && Suffix(q, r)
    ensures Suffix(p, r) && (|p| == |q| ==> p == q)
  {
    assert q[|q| - |r|..] == p[|p| - |r|..];
  }

  /** Change c makes engines d into e. */
  ghost predicate Turns(d: Sound, c: Change, e: Sound) { SoundOk(d) && ChangeOk(c) && e == Changed(d, c) }

  /** k more events stamped now would leave one in the ring stamped before now, or room. */
  predicate Spare(p: seq<Timed>, now: nat, k: nat) {
    k <= EV_SIZE && |p| <= EV_SIZE && (|p| + k > EV_SIZE ==> p[|p| + k - EV_SIZE - 1].at < now)
  }

  lemma {:induction false} IdleAdd(m: Machine, rom: seq<int>, a: nat, b: nat)
    requires AtRest(m) && RomOk(rom)
    ensures Idle(m, rom, a + b) == Idle(Idle(m, rom, a), rom, b)
    decreases a
  {
    hide AtRest, RomOk, Sampled;
    if a > 0 {
      IdleAdd(Sampled(m, rom), rom, a - 1, b);
    }
  }

  lemma {:induction false} PlaysAdd(p: Player, a: nat, b: nat)
    requires PlayerOk(p)
    ensures Plays(p, a + b) == Plays(Plays(p, a), b)
    decreases b
  {
    hide PlayerOk, Play;
    if b > 0 {
      PlaysAdd(p, a, b - 1);
    }
  }

  lemma MeetsTables(s: Sound, made: nat, p: seq<Timed>, d: Sound, clock: nat, spoken: seq<Stereo>, t: Tables)
    requires Meets(s, made, p, d, clock, spoken, t)
    ensures TablesOk(t) && SoundOk(d) && SoundOk(s)
  {
    hide TablesOk, SoundOk, SoundAlike, Future, Voices, Roomy, DueBy;
  }

  lemma {:induction false} IdleDrops(m: Machine, n: nat, rom: seq<int>)
    requires AtRest(m) && RomOk(rom)
    ensures Idle(m, rom, n).drops == m.drops
    decreases n
  {
    TicksAreSamples(m, n, rom);
  }

  lemma IdleNone(m: Machine, rom: seq<int>)
    requires AtRest(m) && RomOk(rom)
    ensures Idle(m, rom, 0) == m
  {
  }

  lemma WrappedCount(frames: int, frame: int, takes: int)
    requires frame > 0 && 0 <= frames <= BUF_SIZE && takes >= 0
    ensures var got := takes % ONE;
      && (Countable(takes, frames) ==>
            Least(got, frames) == Least(takes, frames) && (got >= frames <==> takes >= frames))
      && (!Countable(takes, frames) ==> got < frames <= takes && got * frame < frames * frame)
  {
    var got := takes % ONE;
    if got < frames {
      MoreFrames(got, frames, frame);
    }
    assert takes < ONE ==> got == takes;
  }

  lemma MoreFrames(a: int, b: int, frame: int)
    requires frame > 0 && a < b
    ensures a * frame < b * frame
  {
  }

  lemma FramesHeld(level: int, frame: int)
    requires frame > 0 && 0 <= level <= BUF_SIZE
    ensures 0 <= level / frame <= BUF_SIZE
  {
  }

  lemma LevelBounds(p: Player)
    requires PlayerOk(p)
    ensures 0 <= |p.buf| <= BUF_SIZE
  {
  }

  lemma PlaysNone(p: Player)
    requires PlayerOk(p)
    ensures Plays(p, 0) == p
  {
  }

  /** Only an open starts a player. */
  lemma ChangedPcm(s: Sound, c: Change)
    requires SoundOk(s) && ChangeOk(c)
    ensures Changed(s, c).pcm.Some? ==> s.pcm.Some? || c.Opened?
  {
    hide AtRest, IsReg;
  }

  lemma ChangedDrops(s: Sound, c: Change)
    requires SoundOk(s) && ChangeOk(c) && Changed(s, c).m.drops <= s.m.drops
    ensures 0 <= Changed(s, c).m.drops
  {
    DropsRest(Changed(s, c).m);
  }

  /** One sample of the render's engine: after it, and its word. */
  function Heard(m: Machine, rom: seq<int>): (r: (Machine, int))
    requires AtRest(m) && RomOk(rom)
    ensures r == (Sampled(m, rom), Sample(m, rom).1)
  {
    Sample(m, rom)
  }

  lemma TickedParts(s: Sound, t: Tables)
    requires SoundOk(s) && TablesOk(t)
    ensures Ticked(s, t).m.drops == s.m.drops && (Ticked(s, t).pcm.Some? <==> s.pcm.Some?)
  {
    hide AtRest, PlayerOk, RomOk, Sampled, Play;
    TickIsSample(s.m, t.rom);
  }

  /** What a write to XRAM does to the engines: a push, when it lands on a register of the mapped block. */
  ghost predicate Struck(d: Sound, addr: int, val: u8, e: Sound) {
    SoundOk(d) &&
    var reg := (addr - d.word) % 0x10000;
    e == if d.word != UNMAPPED && reg < BLOCK && IsReg(reg) then d.(m := Push(d.m, Write(reg, val))) else d
  }

  lemma ShadowRing(m: Machine)
    requires AtRest(m)
    ensures |m.chip.lag| == 6 && |Shadow(m).ring| == |m.queue| <= QUEUE_SIZE
  {
    hide KeysAgree, Coherent, IsReg, HeldOk;
  }

  lemma PushCounts(m: Machine, w: Write)
    requires AtRest(m) && IsReg(w.reg)
    ensures Push(m, w).drops == if |m.queue| < QUEUE_SIZE || m.drops == MAX_DROPS then m.drops else m.drops + 1
    ensures m.drops <= MAX_DROPS
  {
    hide WellFormed, KeysAgree, Coherent, IsReg, HeldOk;
  }

  lemma DecodesPut(reg: u8, val: u8, psg: int)
    requires 0 <= psg < 0x100
    ensures Decoded(psg * 0x100 + reg, val, EV_OPL) == Put(Write(reg, val))
  {
  }

  lemma PutTurns(d: Sound, w: Write)
    requires SoundOk(d) && IsReg(w.reg)
    ensures ChangeOk(Put(w)) && Changed(d, Put(w)) == d.(m := Push(d.m, w)) && AtRest(Push(d.m, w))
    ensures Fits(d, Put(w)) <==> |d.m.queue| < QUEUE_SIZE
    ensures |d.m.chip.lag| == 6 && |Shadow(d.m).ring| == |d.m.queue|
  {
    NoteTurns(d.m, w);
    hide AtRest, IsReg, Push, Shadow, PlayerOk;
  }

  lemma NoteTurns(m: Machine, w: Write)
    requires AtRest(m) && IsReg(w.reg)
    ensures AtRest(Push(m, w)) && |m.chip.lag| == 6 && |Push(m, w).chip.lag| == 6 && |Shadow(m).ring| == |m.queue|
    ensures |m.queue| < QUEUE_SIZE ==> Shadow(Push(m, w)) == Shadow(m).(ring := Shadow(m).ring + [w.reg])
    ensures |m.queue| < QUEUE_SIZE ==> Push(m, w).drops == m.drops
  {
    ShadowPush(m, w);
    ShadowRing(m);
    PushCounts(m, w);
    PushRests(m, w);
    hide AtRest, IsReg, Push, Shadow;
  }

  lemma DecodesOpen(f: Fmt)
    requires FmtOk(f)
    ensures Decoded(f.rate, (if f.bits == 16 then 1 else 0) + (if f.channels == 2 then 2 else 0), EV_OPEN) == Opened(f)
  {
  }

  lemma Undropped(d: Sound)
    requires SoundOk(d)
    ensures SoundOk(d.(m := d.m.(drops := 0))) && SoundAlike(d, d.(m := d.m.(drops := 0)))
  {
    TakenRests(d.m);
    hide AtRest, PlayerOk;
  }

  lemma IdleUndropped(m: Machine, n: nat, rom: seq<int>)
    requires AtRest(m) && RomOk(rom)
    ensures AtRest(m.(drops := 0)) && Idle(m.(drops := 0), rom, n) == Idle(m, rom, n).(drops := 0)
  {
    TakenRests(m);
    IdleAlike(m, m.(drops := 0), n, rom);
    IdleDrops(m, n, rom);
    IdleDrops(m.(drops := 0), n, rom);
    hide Idle, AtRest;
  }

  lemma ShadowUndropped(m: Machine)
    requires |m.chip.lag| == 6
    ensures |m.(drops := 0).chip.lag| == 6 && Shadow(m.(drops := 0)) == Shadow(m)
  {
  }

  lemma MapTurns(d: Sound, word: int)
    requires SoundOk(d) && 0 <= word < 0x10000
    ensures ChangeOk(Map(word)) && Changed(d, Map(word)) == Sound(word, ResetMachine(), d.pcm) && Fits(d, Map(word))
    ensures AtRest(ResetMachine()) && |ResetMachine().chip.lag| == 6
    ensures Shadow(ResetMachine()) == Oq([], false, 96) && ResetMachine().drops == 0
  {
    ShadowReset();
    ResetRests();
    hide AtRest, ResetMachine, Shadow;
  }

  lemma OpenTurns(d: Sound, f: Fmt)
    requires SoundOk(d) && FmtOk(f)
    ensures ChangeOk(Opened(f)) && Changed(d, Opened(f)) == d.(pcm := Some(Fresh(f))) && Fits(d, Opened(f))
    ensures Fresh(f).fmt == f
  {
    hide AtRest;
  }

  function Least(a: int, b: int): int { if a < b then a else b }

  /** n bytes of src, as many as the buffer has room for, are at the end of d's buffer in e. */
  ghost predicate Filled(d: Sound, src: seq<u8>, n: nat, e: Sound) {
    && d.pcm.Some? && n == Least(|src|, BUF_SIZE - |d.pcm.value.buf|)
    && e == d.(pcm := Some(d.pcm.value.(buf := d.pcm.value.buf + src[..n])))
  }

  /** n is d's count of underruns, and e has none. */
  ghost predicate Asked(d: Sound, n: int, e: Sound) {
    d.pcm.Some? && n == d.pcm.value.underruns && e == d.(pcm := Some(d.pcm.value.(underruns := 0)))
  }

  /** d's player has run dry once more than count says exactly when a level of a frame or more has become
      one of less. */
  ghost predicate Uncounted(d: Sound, level: int, frame: int, count: int) {
    d.pcm.Some? &&
    var p := d.pcm.value;
    p.underruns == if level >= frame > |p.buf| && count < MAX_COUNT then count + 1 else count
  }

  lemma SpareLess(p: seq<Timed>, now: nat, k: nat, j: nat)
    requires Spare(p, now, k) && j <= k && forall i, l :: 0 <= i < l < |p| ==> p[i].at <= p[l].at
    ensures Spare(p, now, j)
  {
  }

  lemma SpareNone(p: seq<Timed>, now: nat)
    ensures |p| <= EV_SIZE ==> Spare(p, now, 0)
  {
  }

  lemma SparePushed(p: seq<Timed>, q: seq<Timed>, now: nat, k: nat)
    requires Spare(p, now, k) && k > 0 && |q| > 0 && |q| <= EV_SIZE && Suffix(p, q[..|q| - 1])
    ensures Spare(q, now, k - 1)
  {
    if |q| + k - 1 > EV_SIZE {
      var i := |q| + k - 1 - EV_SIZE - 1;
      assert q[..|q| - 1][i] == p[|p| - (|q| - 1) + i];
    }
  }

  lemma DataTurns(d: Sound, x: seq<u8>)
    requires SoundOk(d) && d.pcm.Some? && 1 <= |x| <= 3 && |d.pcm.value.buf| + |x| <= BUF_SIZE
    ensures ChangeOk(Data(x)) && Fits(d, Data(x))
    ensures Changed(d, Data(x)) == d.(pcm := Some(d.pcm.value.(buf := d.pcm.value.buf + x)))
  {
    hide AtRest, PlayerOk;
    assert x[..|x|] == x;
  }

  /** The first two bytes of an event's, low one first. */
  function AddrOf(x: seq<u8>): int
    requires |x| > 0
  {
    var lo: int, hi: int := x[0], if |x| > 1 then x[1] else 0;
    lo + 0x100 * hi
  }

  lemma DecodesData(x: seq<u8>)
    requires 1 <= |x| <= 3
    ensures Decoded(AddrOf(x), if |x| > 2 then x[2] else 0, EV_DATA + |x|) == Data(x)
  {
    var lo: int, hi: int := x[0], if |x| > 1 then x[1] else 0;
    var addr := AddrOf(x);
    assert addr % 256 == lo && addr / 256 % 256 == hi;
    assert [lo, hi, if |x| > 2 then x[2] else 0][..|x|] == x;
  }

  lemma EmptyTurns(d: Sound)
    requires SoundOk(d) && d.pcm.Some? && PlayerOk(d.pcm.value)
    ensures ChangeOk(Emptied) && Fits(d, Emptied) && Decoded(0, 0, EV_CLEAR) == Emptied
    ensures Changed(d, Emptied) == d.(pcm := Some(d.pcm.value.(buf := []))) && PlayerOk(d.pcm.value.(buf := []))
    ensures Metered(d.pcm.value.(buf := [])) == Metered(d.pcm.value).(level := 0)
  {
    hide AtRest;
  }

  lemma SuppliedOk(p: Player, b: seq<u8>)
    requires PlayerOk(p) && |p.buf| + |b| <= BUF_SIZE
    ensures PlayerOk(p.(buf := p.buf + b)) && Metered(p.(buf := p.buf + b)) == Metered(p).(level := |p.buf| + |b|)
  {
  }

  lemma Ununderrun(d: Sound)
    requires SoundOk(d) && d.pcm.Some? && PlayerOk(d.pcm.value)
    ensures var e := d.(pcm := Some(d.pcm.value.(underruns := 0)));
      SoundOk(e) && SoundAlike(d, e) && PlayerOk(e.pcm.value)
        && Metered(e.pcm.value) == Metered(d.pcm.value).(underruns := 0)
  {
    hide AtRest;
  }

  /** The same engines with other counts. */
  function Recounted(s: Sound, lost: int, dry: int): Sound {
    Sound(s.word, s.m.(drops := lost), if s.pcm.Some? then Some(s.pcm.value.(underruns := dry)) else None)
  }

  /** The late flag and the credit of the engine's own queue (opl_pace_get). */
  method PaceOf(m: Machine) returns (late: bool, credit: int)
    requires AtRest(m)
    ensures |m.chip.lag| == 6 && late == LateHalf(m.chip.lag) && credit == m.credit
  {
    RestLag(m);
    return m.chip.lag[0] || m.chip.lag[1] || m.chip.lag[2], m.credit;
  }

  lemma RecountedParts(s: Sound, lost: int, dry: int)
    ensures var d := Recounted(s, lost, dry);
      && d.word == s.word && d.m == s.m.(drops := lost)
      && d.pcm == if s.pcm.Some? then Some(s.pcm.value.(underruns := dry)) else None
  {
  }

  lemma RecountedOk(s: Sound, lost: int, dry: int)
    requires SoundOk(s) && s.m.drops == 0 && 0 <= lost <= MAX_DROPS && 0 <= dry <= MAX_COUNT
    ensures SoundOk(Recounted(s, lost, dry)) && SoundAlike(s, Recounted(s, lost, dry))
    ensures AtRest(s.m.(drops := lost)) && |s.m.chip.lag| == 6
    ensures Shadow(s.m.(drops := lost)) == Oq(Regs(s.m.queue), LateHalf(s.m.chip.lag), s.m.credit)
    ensures AtRest(s.m) && (s.pcm.Some? ==> PlayerOk(s.pcm.value) && PlayerOk(s.pcm.value.(underruns := dry)))
  {
    RestLag(s.m);
    hide WellFormed, KeysAgree, Coherent, IsReg, HeldOk;
  }

  lemma DropAlike(d: Sound, w: Write)
    requires SoundOk(d) && IsReg(w.reg) && |d.m.queue| >= QUEUE_SIZE
    ensures SoundOk(d.(m := Push(d.m, w))) && SoundAlike(d, d.(m := Push(d.m, w)))
  {
    PushRests(d.m, w);
    hide AtRest, IsReg, PlayerOk;
  }

  /** A render with nothing to come is the directly driven engines. */
  lemma MeetsDone(s: Sound, made: nat, p: seq<Timed>, d: Sound, clock: nat, spoken: seq<Stereo>, t: Tables)
    requires Meets(s, made, p, d, clock, spoken, t) && made == clock && (|p| > 0 ==> p[0].at > made)
    ensures p == [] && spoken == [] && SoundAlike(s, d)
  {
    hide SoundOk, TablesOk, SoundAlike;
  }

  class Aud {
    const t: Tables
    // aud_opl_at and aud_oq
    var oplAt: int
    var oqAt: nat            // the next sample to step
    var ring: seq<u8>
    var late: bool
    var credit: int
    var drops: int
    // aud_pm
    var on: bool
    var fmt: Fmt
    var frame: int
    var step: int
    var pmAt: nat
    var phase: int
    var level: int
    var underruns: int
    // aud_ev, and what its events stand for
    var ev: seq<AudEv>
    ghost var pending: seq<Timed>
    // the render: its next sample, its engines, and the stamp its player's next sample has
    var made: nat
    var s: Sound
    var pcmDue: int
    var pcmOut: Stereo
    // engines driven directly, at the machine's sample clock, and where the two counts left off
    ghost var clock: nat
    ghost var direct: Sound
    ghost var oplBase: Machine
    ghost var pcmBase: Player
    // the samples the render has made, and those the directly driven engines have made since
    ghost var heard: seq<Stereo>
    ghost var spoken: seq<Stereo>

    /** Every sample the directly driven engines have made. */
    ghost function Said(): seq<Stereo>
      reads this`heard, this`spoken
    {
      heard + spoken
    }

    /** Each stamp stands for its sample, and none is behind the render or ahead of the machine. */
    ghost predicate Stamped()
      reads this`ev, this`pending, this`made, this`clock
    {
      && |ev| == |pending| <= EV_SIZE && made <= clock < made + HALF
      && (forall i :: 0 <= i < |ev| ==>
            && ev[i].at == pending[i].at % STAMP && Decoded(ev[i].addr, ev[i].val, ev[i].kind) == pending[i].change
            && made <= pending[i].at <= clock)
      && (forall i, j :: 0 <= i < j < |ev| ==> pending[i].at <= pending[j].at)
    }

    /** The render, which loses nothing, is on its way to being the directly driven engines, and to
        having made their samples. */
    ghost predicate Flowing()
      reads this`ev, this`pending, this`made, this`clock, this`s, this`direct, this`spoken, this`pcmDue
    {
      && Stamped() && Meets(s, made, pending, direct, clock, spoken, t) && s.m.drops == 0
      && (s.pcm.Some? ==> pcmDue == made % STAMP)
    }

    /** What the machine keeps of the OPL2's queue is, once stepped to sample now, that of an engine d
        mapped at word. */
    ghost predicate OplCounts(word: int, d: Machine, now: nat)
      reads this`oplAt, this`oqAt, this`ring, this`late, this`credit, this`drops, this`oplBase
    {
      && oplAt == word && drops == d.drops && oqAt <= now && RomOk(t.rom)
      && (oplAt != UNMAPPED ==>
            && AtRest(oplBase) && |oplBase.chip.lag| == 6 && Oq(ring, late, credit) == Shadow(oplBase)
            && d == Idle(oplBase, t.rom, now - oqAt))
    }

    /** And of the player p: its phase, its level and its underruns. */
    ghost predicate PcmCounts(p: Option<Player>, now: nat)
      reads this`on, this`fmt, this`frame, this`step, this`pmAt, this`phase, this`level, this`underruns, this`pcmBase
    {
      && (on <==> p.Some?)
      && (on ==>
            && PlayerOk(pcmBase) && fmt == pcmBase.fmt && frame == Frame(fmt) && step == StepOf(fmt.rate)
            && pmAt <= now && Meter(phase, level, underruns) == Metered(pcmBase)
            && p.value == Plays(pcmBase, now - pmAt))
    }

    ghost predicate OplMirrors()
      reads this`oplAt, this`oqAt, this`ring, this`late, this`credit, this`drops, this`direct, this`clock, this`oplBase
    {
      OplCounts(direct.word, direct.m, clock)
    }

    ghost predicate PcmMirrors()
      reads this`on, this`fmt, this`frame, this`step, this`pmAt, this`phase, this`level, this`underruns
      reads this`direct, this`clock, this`pcmBase
    {
      PcmCounts(direct.pcm, clock)
    }

    ghost predicate Valid()
      reads this
    {
      Flowing() && OplMirrors() && PcmMirrors()
    }

    constructor (tables: Tables, now: nat)
      requires TablesOk(tables)
      ensures Valid() && clock == made == now && direct == Sound(UNMAPPED, ResetMachine(), None) && Said() == []
      ensures underruns == 0
    {
      t := tables;
      oplAt, oqAt, ring, late, credit, drops := UNMAPPED, now, [], false, 96, 0;
      on, fmt, frame, step, pmAt, phase, level, underruns := false, Fmt(0, 8, 1), 0, 0, now, 0, 0, 0;
      ev, pending, made, pcmDue, pcmOut := [], [], now, 0, SILENCE;
      s, direct := Sound(UNMAPPED, ResetMachine(), None), Sound(UNMAPPED, ResetMachine(), None);
      clock, heard, spoken := now, [], [];
      new;
      hide ResetMachine, AtRest;
      ResetRests();
      ResetQueue();
    }

    /** The two sides after a load (aud_sst_load): the render's engines as their rows left them, the counts
        rebuilt from the render's queue, pace and buffer, and the ring empty. */
    method Resume(sound: Sound, now: nat, lost: int, dry: int)
      requires TablesOk(t) && SoundOk(sound) && sound.m.drops == 0 && 0 <= lost <= MAX_DROPS && 0 <= dry <= MAX_COUNT
      modifies this
      ensures Valid() && clock == made == now && Said() == [] && s == sound && direct == Recounted(sound, lost, dry)
      ensures underruns == dry
    {
      hide SoundOk, SoundAlike, Shadow, AtRest, Flowing, OplCounts, PcmCounts, RomOk, PlayerOk, StepOf, LateHalf;
      hide Regs, Recounted;
      RecountedOk(sound, lost, dry);
      RecountedParts(sound, lost, dry);
      OqResume(sound.word, sound.m, now, lost);
      PmResume(sound.pcm, now, dry);
      RenderResume(sound, now, Recounted(sound, lost, dry));
      Rebase();
    }

    /** Counts that are the directly driven engines' now. */
    ghost method Rebase()
      requires oqAt == clock && RomOk(t.rom) && drops == direct.m.drops && oplAt == direct.word
      requires AtRest(direct.m) && |direct.m.chip.lag| == 6 && Oq(ring, late, credit) == Shadow(direct.m)
      requires on == direct.pcm.Some?
      requires on ==>
        var p := direct.pcm.value;
        && pmAt == clock && PlayerOk(p) && fmt == p.fmt && frame == Frame(fmt) && step == StepOf(fmt.rate)
        && Meter(phase, level, underruns) == Metered(p)
      modifies this`oplBase, this`pcmBase
      ensures OplMirrors() && PcmMirrors()
    {
      hide Shadow, AtRest, OplCounts, PcmCounts, RomOk, PlayerOk, StepOf, Metered;
      oplBase := direct.m;
      if on {
        pcmBase := direct.pcm.value;
        Restarted();
      } else {
        Silent();
      }
      Restepped();
    }

    /** The queue's count at the render's own queue and pace. */
    method OqResume(word: int, m: Machine, now: nat, lost: int)
      requires AtRest(m)
      modifies this`oplAt, this`oqAt, this`ring, this`late, this`credit, this`drops
      ensures oplAt == word && oqAt == now && drops == lost
      ensures |m.chip.lag| == 6 && Oq(ring, late, credit) == Oq(Regs(m.queue), LateHalf(m.chip.lag), m.credit)
    {
      hide AtRest, Regs;
      OqReset(word, now);
      RingIn(m.queue);
      late, credit := PaceOf(m);
      drops := lost;
    }

    lemma Silent()
      requires !on && direct.pcm == None
      ensures PcmMirrors()
    {
    }

    /** The device's count at a player's phase and level. */
    method PmResume(p: Option<Player>, now: nat, dry: int)
      requires p.Some? ==> PlayerOk(p.value)
      modifies this`on, this`fmt, this`frame, this`step, this`pmAt, this`phase, this`level, this`underruns
      ensures on == p.Some? && underruns == dry
      ensures on ==> fmt == p.value.fmt && frame == Frame(fmt) && step == StepOf(fmt.rate) && pmAt == now
      ensures on ==> Meter(phase, level, underruns) == Metered(p.value.(underruns := dry))
    {
      hide PlayerOk, StepOf;
      on, underruns := p.Some?, dry;
      if on {
        fmt, frame, step, pmAt := p.value.fmt, Frame(p.value.fmt), StepOf(p.value.fmt.rate), now;
        phase, level := p.value.phase, |p.value.buf|;
      }
    }

    /** The render at sample now with nothing to come. */
    method RenderResume(sound: Sound, now: nat, ghost d: Sound)
      requires TablesOk(t) && SoundOk(sound) && SoundOk(d) && SoundAlike(sound, d) && sound.m.drops == 0
      modifies this`ev, this`pending, this`made, this`s, this`pcmDue, this`clock, this`direct, this`heard, this`spoken
      ensures Flowing() && clock == made == now && Said() == [] && s == sound && direct == d
    {
      hide TablesOk, SoundOk, SoundAlike;
      ev, pending, made, s, pcmDue := [], [], now, sound, now % STAMP;
      clock, direct, heard, spoken := now, d, [], [];
    }

    /** The registers of the render's queue, in order. */
    method RingIn(queue: seq<Write>)
      requires ring == []
      modifies this`ring
      ensures ring == Regs(queue)
    {
      for i := 0 to |queue|
        invariant ring == Regs(queue[..i])
      {
        assert queue[..i + 1] == queue[..i] + [queue[i]];
        ring := ring + [queue[i].reg];
      }
      assert queue[..|queue|] == queue;
    }

    // ---------------- the machine's time ----------------

    /** The directly driven engines go on to the machine's present. */
    ghost method Advance(now: nat)
      requires Valid() && clock <= now < made + HALF
      modifies this`clock, this`direct, this`spoken
      ensures Valid() && clock == now && direct == Ahead(old(direct), now - old(clock), t)
      ensures Said() == old(Said()) + Speech(old(direct), now - old(clock), t)
    {
      hide AtRest, PlayerOk, Meets, Sampled, RomOk, Idle, Plays, Ahead, Speech, Shadow, StepOf, Metered;
      MeetsTables(s, made, pending, direct, clock, spoken, t);
      ghost var n := now - clock;
      MeetsAhead(s, made, pending, direct, clock, spoken, n, t);
      AheadParts(direct, n, t);
      if oplAt != UNMAPPED {
        IdleAdd(oplBase, t.rom, clock - oqAt, n);
        IdleDrops(direct.m, n, t.rom);
      }
      if on {
        PlaysAdd(pcmBase, clock - pmAt, n);
      }
      assert heard + (spoken + Speech(direct, n, t)) == heard + spoken + Speech(direct, n, t);
      direct, clock, spoken := Ahead(direct, n, t), now, spoken + Speech(direct, n, t);
    }

    /** Every sample before the machine's present, as opl_commit steps them (aud_oq_step). */
    method OqStep(now: nat)
      requires OplMirrors() && now == clock
      modifies this`oqAt, this`ring, this`late, this`credit, this`oplBase
      ensures OplMirrors() && oqAt == clock && (oplAt != UNMAPPED ==> oplBase == direct.m)
    {
      hide AtRest, Sampled, OqTicks, Shadow, RomOk, Idle;
      if oplAt != UNMAPPED {
        TicksAreSamples(oplBase, clock - oqAt, t.rom);
        IdleNone(direct.m, t.rom);
      }
      StepRing(now);
      oplBase := direct.m;
    }

    /** The loop of aud_oq_step, with its jump over idle samples. */
    method StepRing(end: nat)
      requires oqAt <= end
      modifies this`oqAt, this`ring, this`late, this`credit
      ensures oqAt == end && Oq(ring, late, credit) == OqTicks(old(Oq(ring, late, credit)), end - old(oqAt))
    {
      hide IsLate;
      while oqAt < end
        invariant oqAt <= end
        invariant OqTicks(Oq(ring, late, credit), end - oqAt) == OqTicks(old(Oq(ring, late, credit)), end - old(oqAt))
      {
        if |ring| == 0 && !late && credit == 96 {
          IdleStays(Oq(ring, late, credit), end - oqAt);
          oqAt := end;
          return;
        }
        var held := late;
        late := false;
        if !held && credit >= 96 && |ring| > 0 {
          late := IsLate(ring[0]);
          ring := ring[1..];
          credit := credit - 96;
        }
        credit := credit + 72;
        var cap := if |ring| > 0 then 192 else 96;
        if credit > cap {
          credit := cap;
        }
        oqAt := oqAt + 1;
      }
    }

    // ---------------- the player's count ----------------

    /** How many frames n samples ask for, modulo 2^32, and the phase after them (pcm_takes). */
    method PcmTakes(n: nat) returns (takes: int)
      requires 0 <= phase < 2 * ONE && 0 <= step < ONE
      modifies this`phase
      ensures phase == SingleTakes(old(phase), step, n).1
      ensures takes == SingleTakes(old(phase), step, n).0 % ONE
    {
      if n == 0 {
        return 0;
      }
      hide SingleTakes;
      var x, y := phase + (n - 1) * step, phase + n * step;
      WrappedSingle(phase, step, n, x, y);
      takes := x % WORD64 / ONE;
      phase := (y - takes * ONE) % WORD64;
    }

    /** Fewer than 2^32 frames have been due since the last step, or their number modulo 2^32 is still no
        less than what was buffered. */
    ghost predicate InTime(now: nat)
      reads this`on, this`frame, this`step, this`pmAt, this`phase, this`level
    {
      on && frame > 0 && now > pmAt ==> Countable(Pcm.Takes(phase, step, now - pmAt), level / frame)
    }

    /** Every sample before the machine's present at once (aud_pm_step): in time, the count is the player's;
        late, it has bytes the player has not. */
    method PmStep(now: nat)
      requires PcmMirrors() && now == clock
      modifies this`pmAt, this`phase, this`level, this`underruns, this`pcmBase
      ensures pmAt == clock && (!on ==> underruns == old(underruns))
      ensures old(InTime(now)) ==> PcmMirrors() && (on ==> pcmBase == direct.pcm.value)
      ensures !old(InTime(now)) ==> direct.pcm.Some? && level > |direct.pcm.value.buf|
    {
      hide PlayerOk, StepOf, Pcm.Takes, Plays, SingleTakes;
      if on && now > pmAt {
        var n := now - pmAt;
        PlayerBounds(pcmBase);
        ClosedForm(pcmBase, n);
        TakesAreSingle(phase, step, n);
        var takes := PcmTakes(n);
        var frames := level / frame;
        ghost var phase0 := old(phase);
        ghost var all := SingleTakes(phase0, step, n).0;
        LevelBounds(pcmBase);
        TakesRise(phase0, step, n);
        FramesHeld(level, frame);
        WrappedCount(frames, frame, all);
        if frames > 0 && takes >= frames && underruns < MAX_COUNT {
          underruns := underruns + 1;
        }
        if takes > frames {
          takes := frames;
        }
        level := level - takes * frame;
      }
      if on {
        PlaysNone(direct.pcm.value);
        PlaysNone(pcmBase);
        pcmBase := direct.pcm.value;
      }
      pmAt := now;
    }

    // ---------------- the render ----------------

    /** A change made to the render's engines (aud_apply). A player opened is due its first sample at the
        change's. */
    method Apply(e: AudEv)
      requires SoundOk(s) && ChangeOk(Decoded(e.addr, e.val, e.kind))
      modifies this`s, this`pcmDue
      ensures s == Changed(old(s), Decoded(e.addr, e.val, e.kind))
      ensures pcmDue == if Decoded(e.addr, e.val, e.kind).Opened? then e.at else old(pcmDue)
    {
      hide SoundOk, Changed, ChangeOk;
      s := Changed(s, Decoded(e.addr, e.val, e.kind));
      if e.kind == EV_OPEN {
        pcmDue := e.at;
      }
    }

    /** The events whose sample has come (aud_due). */
    method Due()
      requires Flowing()
      modifies this`ev, this`pending, this`s, this`pcmDue
      ensures Flowing() && Suffix(old(pending), pending)
      ensures |pending| > 0 ==> pending[0].at > made
    {
      hide Meets, SoundOk, ChangeOk, Changed, Decoded;
      ghost var p0 := pending;
      while |ev| > 0 && Signed32(made % STAMP - ev[0].at) >= 0
        invariant Flowing() && Suffix(p0, pending)
        decreases |ev|
      {
        StampOrder(made, pending[0].at);
        MeetsDue(s, made, pending, direct, clock, spoken, t);
        MeetsTables(s, made, pending, direct, clock, spoken, t);
        ChangedPcm(s, pending[0].change);
        ChangedDrops(s, pending[0].change);
        Apply(ev[0]);
        ev, pending := ev[1..], pending[1..];
      }
      if |ev| > 0 {
        StampOrder(made, pending[0].at);
      }
    }

    /** The player's samples up to the render's next, which is one (aud_mix). */
    method PlayDue()
      requires s.pcm.Some? && PlayerOk(s.pcm.value) && pcmDue == made % STAMP && TablesOk(t)
      modifies this`s, this`pcmDue, this`pcmOut
      ensures s == old(s).(pcm := Some(Play(old(s.pcm.value)))) && pcmDue == (made + 1) % STAMP
      ensures pcmOut == PcmVoice(old(s.pcm.value), t.coef)
    {
      hide PlayerOk, Play, PcmVoice, RomOk;
      ghost var s0 := s;
      var due := made % STAMP;
      StampNext(made);
      while Signed32(due - pcmDue) >= 0
        invariant if pcmDue == due then s == s0 else
          && pcmDue == (made + 1) % STAMP && s == s0.(pcm := Some(Play(s0.pcm.value)))
          && pcmOut == PcmVoice(s0.pcm.value, t.coef)
        decreases if pcmDue == due then 1 else 0
      {
        pcmOut := PcmVoice(s.pcm.value, t.coef);
        s := s.(pcm := Some(Play(s.pcm.value)));
        pcmDue := (pcmDue + 1) % STAMP;
      }
    }

    /** One sample of every engine, summed and clamped (aud_mix). */
    method Mix() returns (out: Stereo)
      requires SoundOk(s) && TablesOk(t) && (s.pcm.Some? ==> pcmDue == made % STAMP)
      modifies this`s, this`pcmDue, this`pcmOut
      ensures s == Ticked(old(s), t) && out == Voice(old(s), t)
      ensures s.pcm.Some? ==> pcmDue == (made + 1) % STAMP
    {
      hide AtRest, PlayerOk, Play, PcmVoice, RomOk, Sample;
      var o := 0;
      if s.word != UNMAPPED {
        var r := Heard(s.m, t.rom);
        s, o := s.(m := r.0), r.1;
      }
      var p := SILENCE;
      if s.pcm.Some? {
        PlayDue();
        p := pcmOut;
      }
      out := Stereo(Clamp16(o + p.left), Clamp16(o + p.right));
    }

    /** The changes due, then one sample (aud_next): the sample the directly driven engines made then. */
    method Next() returns (out: Stereo)
      requires Flowing() && made < clock
      modifies this`ev, this`pending, this`s, this`pcmDue, this`pcmOut, this`made, this`heard, this`spoken
      ensures Flowing() && made == old(made) + 1 && heard == old(heard) + [out] && Said() == old(Said())
      ensures Suffix(old(pending), pending)
      ensures |old(pending)| > 0 && old(pending[0]).at <= old(made) ==> |pending| < |old(pending)|
    {
      hide Meets, SoundOk, TablesOk, Ticked, Voice;
      Due();
      MeetsSample(s, made, pending, direct, clock, spoken, t);
      MeetsTables(s, made, pending, direct, clock, spoken, t);
      TickedParts(s, t);
      out := Mix();
      assert heard + [spoken[0]] + spoken[1..] == heard + spoken;
      made, heard, spoken := made + 1, heard + [out], spoken[1..];
    }

    /** The render caught up with the machine (aud_take): it makes each sample the directly driven engines
        have made and it had not, and takes the last changes. */
    method Take(now: nat) returns (out: seq<Stereo>)
      requires Valid() && clock <= now < made + HALF
      modifies this`clock, this`direct, this`ev, this`pending, this`s, this`pcmDue, this`pcmOut, this`made, this`heard
      modifies this`spoken
      ensures Valid() && clock == made == now && pending == [] && heard == old(heard) + out == Said()
      ensures Said() == old(Said()) + Speech(old(direct), now - old(clock), t)
      ensures direct == Ahead(old(direct), now - old(clock), t) && SoundAlike(s, direct)
    {
      hide Meets, Ahead, Speech, SoundAlike, OplMirrors, PcmMirrors;
      Advance(now);
      ghost var said, d := Said(), direct;
      out := [];
      while made < now
        invariant Flowing() && OplMirrors() && PcmMirrors() && direct == d
        invariant made <= clock == now && heard == old(heard) + out && Said() == said
      {
        var x := Next();
        out := out + [x];
      }
      Due();
      MeetsDone(s, made, pending, direct, clock, spoken, t);
      assert heard + [] == heard;
    }

    lemma Front()
      requires Flowing()
      ensures |ev| == |pending| <= EV_SIZE && made <= clock && (|pending| > 0 ==> made <= pending[0].at)
    {
      hide Meets, Decoded;
    }

    /** A ring still full brings the render along until it has room (aud_overflow). */
    method Overflow()
      requires Flowing() && (|ev| == EV_SIZE ==> pending[0].at < clock)
      modifies this`ev, this`pending, this`s, this`pcmDue, this`pcmOut, this`made, this`heard, this`spoken
      ensures Flowing() && |ev| < EV_SIZE && Said() == old(Said())
      ensures Suffix(old(pending), pending)
    {
      hide Flowing, Suffix;
      ghost var p0 := pending;
      AllIsSuffix(p0);
      Front();
      while |ev| == EV_SIZE
        invariant Flowing() && Said() == old(Said())
        invariant |ev| == |pending| && (|ev| == EV_SIZE ==> pending[0].at < clock)
        invariant Suffix(p0, pending)
        decreases |ev|, clock - made
      {
        ghost var p := pending;
        Front();
        var out := Next();
        Front();
        AllIsSuffix(pending);
        SuffixJoins(p, pending, pending);
        SuffixJoins(p0, p, pending);
      }
    }

    /** An event stamped now for the render (aud_push_at), and its change made to the directly driven
        engines. */
    method PushAt(now: nat, addr: int, val: u8, kind: int, ghost c: Change)
      requires Flowing() && now == clock && Spare(pending, clock, 1)
      requires Decoded(addr, val, kind) == c && ChangeOk(c) && Fits(direct, c)
      modifies this`ev, this`pending, this`s, this`pcmDue, this`pcmOut, this`made, this`heard, this`spoken, this`direct
      ensures Flowing() && Turns(old(direct), c, direct) && Said() == old(Said())
      ensures |pending| > 0 && pending[|pending| - 1] == Timed(clock, c)
      ensures Suffix(old(pending), pending[..|pending| - 1])
    {
      hide Meets, Changed, ChangeOk, Fits, Decoded;
      MeetsTables(s, made, pending, direct, clock, spoken, t);
      Overflow();
      MeetsChange(s, made, pending, direct, clock, spoken, c, t);
      ev, pending := ev + [AudEv(now % STAMP, addr, val, kind)], pending + [Timed(clock, c)];
      direct := Changed(direct, c);
    }

    // ---------------- the OPL2, as the 6502 reaches it ----------------

    /** A 6502 write to XRAM (aud_xram_write): a register of the mapped block is kept or dropped at once, in
        the machine's time. */
    method XramWrite(addr: int, val: u8, now: nat)
      requires Valid() && clock <= now < made + HALF && 0 <= addr < 0x10000 && Spare(pending, now, 1)
      modifies this
      ensures Valid() && clock == now && Struck(Ahead(old(direct), now - old(clock), t), addr, val, direct)
      ensures Said() == old(Said()) + Speech(old(direct), now - old(clock), t)
      ensures on == old(on) && underruns == old(underruns)
    {
      hide Flowing, PcmCounts, Ahead, Speech, IsReg, Push, Shadow, Idle, AtRest;
      Advance(now);
      var reg := (addr - oplAt) % 0x10000;
      if oplAt == UNMAPPED || reg >= BLOCK || !IsReg(reg) {
        return;
      }
      Offer(reg, val, (addr - UNMAPPED) % 0x100, now);
    }

    /** A write on a register of the mapped block, by the queue's room now. */
    method Offer(reg: u8, val: u8, psg: int, now: nat)
      requires Valid() && clock == now && oplAt != UNMAPPED && IsReg(reg) && Spare(pending, now, 1) && 0 <= psg < 0x100
      modifies this`oqAt, this`ring, this`late, this`credit, this`drops, this`ev, this`pending, this`s, this`pcmDue
      modifies this`pcmOut, this`made, this`heard, this`spoken, this`direct, this`oplBase
      ensures Valid() && direct == old(direct).(m := Push(old(direct.m), Write(reg, val))) && Said() == old(Said())
    {
      hide Flowing, OplCounts, PcmCounts, IsReg, Push, Spare;
      OqStep(now);
      if |ring| < QUEUE_SIZE {
        Keep(reg, val, psg, now);
      } else {
        Drop(reg, val);
      }
    }

    /** A write the queue has room for. The offset in the PSG's block rides along and is not read. */
    method Keep(reg: u8, val: u8, psg: int, now: nat)
      requires Valid() && clock == now == oqAt && oplAt != UNMAPPED && oplBase == direct.m && IsReg(reg)
      requires |ring| < QUEUE_SIZE && Spare(pending, now, 1) && 0 <= psg < 0x100
      modifies this`ring, this`ev, this`pending, this`s, this`pcmDue, this`pcmOut, this`made, this`heard
      modifies this`spoken, this`direct, this`oplBase
      ensures Valid() && direct == old(direct).(m := Push(old(direct.m), Write(reg, val))) && Said() == old(Said())
    {
      hide Flowing, OplCounts, PcmCounts, Push, IsReg, Spare;
      PushWrite(reg, val, psg, now);
      Note(reg, val);
    }

    /** The write stamped for the render. */
    method PushWrite(reg: u8, val: u8, psg: int, now: nat)
      requires Valid() && clock == now == oqAt && oplAt != UNMAPPED && oplBase == direct.m && IsReg(reg)
      requires |ring| < QUEUE_SIZE && Spare(pending, now, 1) && 0 <= psg < 0x100
      modifies this`ev, this`pending, this`s, this`pcmDue, this`pcmOut, this`made, this`heard, this`spoken, this`direct
      ensures Flowing() && PcmMirrors() && Said() == old(Said())
      ensures direct == old(direct).(m := Push(old(direct.m), Write(reg, val)))
    {
      hide Flowing, IsReg, Push, Shadow, Idle, Spare, PcmCounts, Changed, SoundOk, ChangeOk, Fits, Decoded, AtRest;
      DecodesPut(reg, val, psg);
      ghost var w := Write(reg, val);
      FlowingOk();
      Stepped();
      PutTurns(direct, w);
      PushAt(now, psg * 0x100 + reg, val, EV_OPL, Put(w));
    }

    /** And its register in the machine's own queue. */
    method Note(reg: u8, val: u8)
      requires oqAt == clock && oplAt != UNMAPPED && IsReg(reg) && |ring| < QUEUE_SIZE
      requires OplCounts(direct.word, oplBase, clock) && direct.m == Push(oplBase, Write(reg, val))
      modifies this`ring, this`oplBase
      ensures OplMirrors()
    {
      hide IsReg, Push, Shadow, AtRest;
      NoteTurns(oplBase, Write(reg, val));
      ring := ring + [reg];
      oplBase := direct.m;
      IdleNone(direct.m, t.rom);
    }

    lemma FlowingOk()
      requires Flowing()
      ensures TablesOk(t) && SoundOk(direct)
    {
      hide Meets;
      MeetsTables(s, made, pending, direct, clock, spoken, t);
    }

    /** A count stepped to now is the engine's. */
    lemma Stepped()
      requires OplMirrors() && oqAt == clock && oplAt != UNMAPPED && oplBase == direct.m
      ensures AtRest(direct.m) && |direct.m.chip.lag| == 6 && Oq(ring, late, credit) == Shadow(direct.m)
      ensures drops == direct.m.drops && oplAt == direct.word && RomOk(t.rom)
    {
      hide AtRest, Shadow, Idle;
    }

    lemma Restepped()
      requires oqAt == clock && oplBase == direct.m && RomOk(t.rom)
      requires AtRest(direct.m) && |direct.m.chip.lag| == 6 && Oq(ring, late, credit) == Shadow(direct.m)
      requires drops == direct.m.drops && oplAt == direct.word
      ensures OplMirrors()
    {
      IdleNone(direct.m, t.rom);
      hide AtRest, Shadow, Idle;
    }

    /** A write the queue has no room for: counted, and the render never hears of it. */
    method Drop(reg: u8, val: u8)
      requires Valid() && clock == oqAt && oplAt != UNMAPPED && oplBase == direct.m && IsReg(reg)
      requires |ring| >= QUEUE_SIZE
      modifies this`drops, this`direct, this`oplBase
      ensures Valid() && direct == old(direct).(m := Push(old(direct.m), Write(reg, val)))
    {
      hide Meets, IsReg, Push, Shadow, Idle, AtRest, PcmCounts, Stamped;
      ghost var w := Write(reg, val);
      ShadowPush(direct.m, w);
      ShadowRing(direct.m);
      PushCounts(direct.m, w);
      PushRests(direct.m, w);
      MeetsTables(s, made, pending, direct, clock, spoken, t);
      ghost var d := direct.(m := Push(direct.m, w));
      DropAlike(direct, w);
      MeetsCounted(s, made, pending, direct, clock, spoken, d, t);
      if drops < MAX_DROPS {
        drops := drops + 1;
      }
      direct, oplBase := d, d.m;
      IdleNone(oplBase, t.rom);
    }

    /** The OPL2 mapped at word, or parked there being none (aud_opl_map): reset either way. */
    method OplMap(word: int, now: nat)
      requires Valid() && clock <= now < made + HALF && 0 <= word < 0x10000 && Spare(pending, now, 1)
      modifies this
      ensures Valid() && clock == now && Said() == old(Said()) + Speech(old(direct), now - old(clock), t)
      ensures Turns(Ahead(old(direct), now - old(clock), t), Map(word), direct) && direct.word == word
      ensures on == old(on) && underruns == old(underruns)
    {
      hide Flowing, OplMirrors, PcmMirrors, Ahead, Speech, Shadow, ResetMachine, Spare;
      Advance(now);
      Remap(word, now);
    }

    method Remap(word: int, now: nat)
      requires Valid() && clock == now && 0 <= word < 0x10000 && Spare(pending, now, 1)
      modifies this
      ensures Valid() && clock == now && Said() == old(Said()) && Turns(old(direct), Map(word), direct)
      ensures direct.word == word && on == old(on) && underruns == old(underruns)
    {
      hide Flowing, OplCounts, PcmCounts, Shadow, ResetMachine, Spare, AtRest, SoundOk, Changed, ChangeOk;
      OqReset(word, now);
      FlowingOk();
      MapTurns(direct, word);
      PushAt(now, word, 0, EV_OPL_MAP, Map(word));
      oplBase := direct.m;
      Restepped();
    }

    /** The queue as a map leaves it (aud_oq_reset). */
    method OqReset(word: int, now: nat)
      modifies this`oplAt, this`oqAt, this`ring, this`late, this`credit, this`drops
      ensures oplAt == word && oqAt == now && Oq(ring, late, credit) == Oq([], false, 96) && drops == 0
    {
      oplAt, oqAt, ring, late, credit, drops := word, now, [], false, 96, 0;
    }

    /** Drops since the last call (aud_opl_overruns). */
    method OplOverruns() returns (n: int)
      requires Valid()
      modifies this`drops, this`direct, this`oplBase
      ensures Valid() && n == old(direct.m.drops) && direct == old(direct).(m := old(direct.m).(drops := 0))
    {
      hide Stamped, Meets, PcmCounts, Shadow, AtRest, Idle, SoundOk, SoundAlike;
      ghost var d := direct.(m := direct.m.(drops := 0));
      MeetsTables(s, made, pending, direct, clock, spoken, t);
      Undropped(direct);
      MeetsCounted(s, made, pending, direct, clock, spoken, d, t);
      if oplAt != UNMAPPED {
        IdleUndropped(oplBase, clock - oqAt, t.rom);
        ShadowUndropped(oplBase);
      }
      n := drops;
      drops, direct, oplBase := 0, d, oplBase.(drops := 0);
    }

    // ---------------- the PCM: device, as the program reaches it ----------------

    /** Opens the device when it is not (aud_pcm_open). */
    method PcmOpen(f: Fmt, now: nat) returns (ok: bool)
      requires Valid() && FmtOk(f) && clock <= now < made + HALF && Spare(pending, now, 1)
      modifies this
      ensures Valid() && ok == !old(on)
      ensures if ok then
          clock == now && Turns(Ahead(old(direct), now - old(clock), t), Opened(f), direct)
          && Said() == old(Said()) + Speech(old(direct), now - old(clock), t)
        else clock == old(clock) && direct == old(direct) && Said() == old(Said())
    {
      hide Flowing, OplMirrors, PcmMirrors, Ahead, Speech, Fresh, Spare;
      if on {
        return false;
      }
      Advance(now);
      Start(f, now);
      ok := true;
    }

    method Start(f: Fmt, now: nat)
      requires Valid() && FmtOk(f) && clock == now && Spare(pending, now, 1) && !on
      modifies this
      ensures Valid() && clock == now && Said() == old(Said()) && Turns(old(direct), Opened(f), direct)
    {
      hide Flowing, OplCounts, PcmCounts, Spare, SoundOk, Decoded, Changed, ChangeOk, Fresh;
      FlowingOk();
      DecodesOpen(f);
      OpenTurns(direct, f);
      PmReset(f, now);
      PushAt(now, f.rate, (if f.bits == 16 then 1 else 0) + (if f.channels == 2 then 2 else 0), EV_OPEN, Opened(f));
      pcmBase := Fresh(f);
      Restarted();
    }

    method PmReset(f: Fmt, now: nat)
      requires FmtOk(f)
      modifies this`on, this`fmt, this`frame, this`step, this`pmAt, this`phase, this`level, this`underruns
      ensures on && fmt == f && frame == Frame(f) && step == StepOf(f.rate) && pmAt == now
      ensures Meter(phase, level, underruns) == Metered(Fresh(f))
    {
      on, fmt, frame, step, pmAt, phase, level, underruns := true, f, Frame(f), StepOf(f.rate), now, ONE, 0, 0;
    }

    lemma Restarted()
      requires on && pmAt == clock && direct.pcm == Some(pcmBase) && PlayerOk(pcmBase)
      requires fmt == pcmBase.fmt && frame == Frame(fmt) && step == StepOf(fmt.rate)
      requires Meter(phase, level, underruns) == Metered(pcmBase)
      ensures PcmMirrors()
    {
      PlaysNone(pcmBase);
      hide PlayerOk, StepOf, Plays;
    }

    /** Closes it (aud_pcm_close), and keeps the underruns counted by the last step: one since then is
        forgotten. */
    method PcmClose(now: nat)
      requires Valid() && clock <= now < made + HALF && Spare(pending, now, 1)
      modifies this
      ensures Valid() && clock == now && Said() == old(Said()) + Speech(old(direct), now - old(clock), t)
      ensures Turns(Ahead(old(direct), now - old(clock), t), Closed, direct) && !on && underruns == old(underruns)
      ensures old(on) ==> Uncounted(Ahead(old(direct), now - old(clock), t), old(level), old(frame), underruns)
    {
      hide Flowing, OplMirrors, OplCounts, PcmMirrors, Ahead, Speech, Spare, SoundOk;
      Advance(now);
      Dry();
      Stop(now);
    }

    /** The player's underruns by the count of the last step. */
    lemma Dry()
      requires PcmMirrors()
      ensures on ==> Uncounted(direct, level, frame, underruns)
    {
      hide PlayerOk, StepOf, MeterAfter, Plays;
      if on {
        PlayerBounds(pcmBase);
        LevelBounds(pcmBase);
        ClosedForm(pcmBase, clock - pmAt);
        MeterDry(Metered(pcmBase), frame, step, clock - pmAt);
      }
    }

    /** The device's close (pcm_std_close): it waits while there is a frame to play, so no underrun is
        forgotten. The wait reads the sample clock at now, and the close at end. */
    method StdClose(now: nat, end: nat) returns (done: bool)
      requires Valid() && on && clock <= now <= end < made + HALF && Spare(pending, end, 1) && InTime(now)
      modifies this
      ensures Valid() && on == !done && clock == (if done then end else now)
      ensures Said() == old(Said()) + Speech(old(direct), clock - old(clock), t)
      ensures var d := Ahead(old(direct), clock - old(clock), t);
        d.pcm.Some? && if done then Turns(d, Closed, direct) && underruns == d.pcm.value.underruns else direct == d
    {
      hide Flowing, OplMirrors, Ahead, Speech, SoundOk, Spare, Turns, Plays, StepOf, PlayerOk;
      ghost var d := direct;
      FlowingOk();
      AheadAdd(d, now - clock, end - now, t);
      var n := PcmLevel(now);
      assert frame == fmt.bits / 8 * fmt.channels;
      if n >= fmt.bits / 8 * fmt.channels {
        return false;
      }
      ghost var said := Said();
      PcmClose(end);
      assert said + Speech(Ahead(d, now - old(clock), t), end - now, t) == Said();
      done := true;
    }

    method Stop(now: nat)
      requires Valid() && clock == now && Spare(pending, now, 1)
      modifies this
      ensures Valid() && clock == now && Said() == old(Said()) && Turns(old(direct), Closed, direct)
      ensures !on && underruns == old(underruns)
    {
      hide Flowing, OplCounts, Spare, AtRest, SoundOk;
      FlowingOk();
      on := false;
      PushAt(now, 0, 0, EV_CLOSE, Closed);
    }

    /** Takes what fits now, and sends the render the same bytes, three to an event (aud_pcm_write). */
    method PcmWrite(src: seq<u8>, now: nat) returns (n: nat)
      requires Valid() && on && clock <= now < made + HALF && Spare(pending, now, (Least(|src|, BUF_SIZE) + 2) / 3)
      requires InTime(now)
      modifies this
      ensures Valid() && clock == now && Said() == old(Said()) + Speech(old(direct), now - old(clock), t)
      ensures Filled(Ahead(old(direct), now - old(clock), t), src, n, direct)
    {
      hide Flowing, OplMirrors, OplCounts, PcmCounts, Ahead, Speech, Spare, SoundOk, Metered;
      Advance(now);
      PmStep(now);
      Counted();
      Sorted();
      n := Least(|src|, BUF_SIZE - level);
      SpareLess(pending, now, (Least(|src|, BUF_SIZE) + 2) / 3, (n + 2) / 3);
      Supply(src[..n], now);
    }

    /** A count stepped to now is the player's. */
    lemma Counted()
      requires Flowing() && PcmMirrors() && on && pmAt == clock && pcmBase == direct.pcm.value
      ensures SoundOk(direct) && TablesOk(t) && direct.pcm.Some? && PlayerOk(direct.pcm.value)
      ensures fmt == direct.pcm.value.fmt && frame == Frame(fmt) && step == StepOf(fmt.rate)
      ensures Meter(phase, level, underruns) == Metered(direct.pcm.value) && level == |direct.pcm.value.buf| <= BUF_SIZE
    {
      FlowingOk();
      hide Flowing, Plays, StepOf;
    }

    method Supply(b: seq<u8>, now: nat)
      requires Valid() && on && clock == now == pmAt && pcmBase == direct.pcm.value
      requires level + |b| <= BUF_SIZE && Spare(pending, now, (|b| + 2) / 3)
      modifies this
      ensures Valid() && clock == now && Said() == old(Said()) && direct.pcm.Some? && old(direct.pcm).Some?
      ensures direct == old(direct).(pcm := Some(old(direct.pcm.value).(buf := old(direct.pcm.value.buf) + b)))
    {
      hide Flowing, OplCounts, PcmCounts, Spare, SoundOk, StepOf;
      Counted();
      ghost var p := direct.pcm.value;
      level := level + |b|;
      Send(b, now);
      pcmBase := direct.pcm.value;
      SuppliedOk(p, b);
      Restarted();
    }

    /** The bytes, three to an event. */
    method Send(b: seq<u8>, now: nat)
      requires Flowing() && clock == now && direct.pcm.Some? && |direct.pcm.value.buf| + |b| <= BUF_SIZE
      requires Spare(pending, now, (|b| + 2) / 3)
      modifies this`ev, this`pending, this`s, this`pcmDue, this`pcmOut, this`made, this`heard, this`spoken, this`direct
      ensures Flowing() && clock == now && Said() == old(Said())
      ensures direct == old(direct).(pcm := Some(old(direct.pcm.value).(buf := old(direct.pcm.value.buf) + b)))
    {
      hide Flowing, Spare, SoundOk, Changed, ChangeOk, Fits, Decoded;
      ghost var d := direct;
      var i := 0;
      assert d.pcm.value.buf + b[..0] == d.pcm.value.buf;
      while i < |b|
        invariant Flowing() && Said() == old(Said()) && 0 <= i <= |b|
        invariant direct == d.(pcm := Some(d.pcm.value.(buf := d.pcm.value.buf + b[..i])))
        invariant Spare(pending, now, (|b| - i + 2) / 3)
      {
        var end := if i + 3 <= |b| then i + 3 else |b|;
        var x := b[i..end];
        ghost var p, k := pending, (|b| - i + 2) / 3;
        FlowingOk();
        Sorted();
        SpareLess(p, now, k, 1);
        DataTurns(direct, x);
        DecodesData(x);
        PushAt(now, AddrOf(x), if |x| > 2 then x[2] else 0, EV_DATA + |x|, Data(x));
        Sorted();
        SparePushed(p, pending, now, k);
        assert d.pcm.value.buf + b[..i] + x == d.pcm.value.buf + b[..end];
        assert (|b| - end + 2) / 3 == if end == |b| then 0 else k - 1;
        SpareNone(pending, now);
        i := end;
      }
      assert b[..i] == b;
    }

    lemma Sorted()
      requires Flowing()
      ensures |pending| <= EV_SIZE && forall i, j :: 0 <= i < j < |pending| ==> pending[i].at <= pending[j].at
    {
      hide Meets;
    }

    /** How full the player's buffer is (aud_pcm_level), exactly when it is asked in time. */
    method PcmLevel(now: nat) returns (n: int)
      requires Valid() && on && clock <= now < made + HALF
      modifies this`clock, this`direct, this`spoken, this`pmAt, this`phase, this`level, this`underruns, this`pcmBase
      ensures Flowing() && OplMirrors() && clock == now
      ensures Said() == old(Said()) + Speech(old(direct), now - old(clock), t)
      ensures direct == Ahead(old(direct), now - old(clock), t) && direct.pcm.Some? && n == level
      ensures if old(InTime(now)) then Valid() && n == |direct.pcm.value.buf| else n > |direct.pcm.value.buf|
    {
      hide Flowing, OplMirrors, OplCounts, PcmCounts, Ahead, Speech, SoundOk, Metered, InTime;
      Advance(now);
      ghost var punctual := InTime(now);
      PmStep(now);
      if punctual {
        Counted();
      }
      n := level;
    }

    /** The buffer emptied (aud_pcm_clear). */
    method PcmClear(now: nat)
      requires Valid() && on && clock <= now < made + HALF && Spare(pending, now, 1)
      requires InTime(now)
      modifies this
      ensures Valid() && clock == now && Said() == old(Said()) + Speech(old(direct), now - old(clock), t)
      ensures Turns(Ahead(old(direct), now - old(clock), t), Emptied, direct)
    {
      hide Flowing, OplMirrors, OplCounts, PcmCounts, Ahead, Speech, Spare, SoundOk, Metered;
      Advance(now);
      PmStep(now);
      Empty(now);
    }

    method Empty(now: nat)
      requires Valid() && on && clock == now == pmAt && pcmBase == direct.pcm.value && Spare(pending, now, 1)
      modifies this
      ensures Valid() && clock == now && Said() == old(Said()) && Turns(old(direct), Emptied, direct)
    {
      hide Flowing, OplCounts, PcmCounts, Spare, SoundOk, StepOf, Changed, ChangeOk, Decoded;
      Counted();
      EmptyTurns(direct);
      level := 0;
      PushAt(now, 0, 0, EV_CLEAR, Emptied);
      pcmBase := direct.pcm.value;
      Restarted();
    }

    /** Underruns since the last call (aud_pcm_underruns): the player's, or with the device closed those it
        closed with. */
    method PcmUnderruns(now: nat) returns (n: int)
      requires Valid() && clock <= now < made + HALF && InTime(now)
      modifies this`clock, this`direct, this`spoken, this`pmAt, this`phase, this`level, this`underruns, this`pcmBase
      ensures Valid() && clock == now && Said() == old(Said()) + Speech(old(direct), now - old(clock), t)
      ensures var d := Ahead(old(direct), now - old(clock), t);
        if on then Asked(d, n, direct) else n == old(underruns) && direct == d
      ensures underruns == 0
    {
      hide Flowing, OplMirrors, OplCounts, PcmCounts, Ahead, Speech, SoundOk, Metered;
      Advance(now);
      PmStep(now);
      if on {
        n := Forget();
      } else {
        n := ForgetClosed();
      }
    }

    method ForgetClosed() returns (n: int)
      requires PcmMirrors() && !on
      modifies this`underruns
      ensures PcmMirrors() && n == old(underruns) && underruns == 0
    {
      n := underruns;
      underruns := 0;
    }

    method Forget() returns (n: int)
      requires Valid() && on && clock == pmAt && pcmBase == direct.pcm.value
      modifies this`underruns, this`direct, this`pcmBase
      ensures Valid() && Asked(old(direct), n, direct) && underruns == 0
    {
      hide Stamped, Meets, OplCounts, PcmCounts, SoundOk, SoundAlike, StepOf;
      Counted();
      ghost var p := direct.pcm.value.(underruns := 0);
      ghost var d := direct.(pcm := Some(p));
      Ununderrun(direct);
      MeetsCounted(s, made, pending, direct, clock, spoken, d, t);
      n := underruns;
      underruns, direct, pcmBase := 0, d, p;
      Restarted();
    }
  }

  // ---------------- byte by byte ----------------

  /** A write to XRAM reaches the OPL2 exactly when it lands in the 256 bytes from where it is mapped, on a
      register; it is mapped nowhere at $FFFF. */
  lemma StruckMeans(d: Sound, reg: int, val: u8, e: Sound)
    requires SoundOk(d) && 0 <= d.word < 0x10000 && 0 <= reg < 0x10000
    ensures Struck(d, (d.word + reg) % 0x10000, val, e) <==>
            e == if d.word != 0xFFFF && reg < 256 && IsReg(reg) then d.(m := Push(d.m, Write(reg, val))) else d
  {
    hide SoundOk, IsReg, Push;
    assert ((d.word + reg) % 0x10000 - d.word) % 0x10000 == reg;
  }

  /** A player's buffer takes what there is room for of 4096 bytes. */
  lemma FilledMeans(d: Sound, src: seq<u8>, n: nat, e: Sound)
    requires SoundOk(d) && Filled(d, src, n, e)
    ensures d.pcm.Some? && e.pcm.Some? && e == d.(pcm := Some(d.pcm.value.(buf := d.pcm.value.buf + src[..n])))
    ensures n <= |src| && |e.pcm.value.buf| <= 4096 && (n == |src| || |e.pcm.value.buf| == 4096)
  {
    hide AtRest;
  }
}
