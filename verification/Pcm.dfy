/** The PCM: player (src/core/aud/pcm.c), and what the machine keeps of it (aud_pm of
    src/core/aud/mix.c). */
module Pcm {
  import opened Common
  import opened Rsmp

  const BUF_SIZE := 4096
  const MAX_COUNT := 0x7FFFFFFF
  const NATIVE := 49716
  const RATE_MAX := 48000

  datatype Fmt = Fmt(rate: int, bits: int, channels: int)

  /** The formats the device opens. */
  predicate FmtOk(f: Fmt) { 0 < f.rate <= RATE_MAX && f.bits in {8, 16} && f.channels in {1, 2} }

  function Frame(f: Fmt): int { f.bits / 8 * f.channels }

  /** Frames per native sample, Q32. */
  function StepOf(rate: int): (s: int)
    ensures 0 <= rate <= RATE_MAX ==> 0 <= s < ONE
  {
    rate * ONE / NATIVE
  }

  /** The player as it means to be: a shift register a channel, newest last, and the full table. */
  datatype Player = Player(fmt: Fmt, phase: int, buf: seq<u8>, hl: Row, hr: Row, underruns: int)

  predicate PlayerOk(p: Player) {
    FmtOk(p.fmt) && 0 <= p.phase < 2 * ONE && |p.buf| <= BUF_SIZE && 0 <= p.underruns <= MAX_COUNT
  }

  /** The sample at byte i of the buffer. */
  function Decode(fmt: Fmt, buf: seq<u8>, i: nat): int
    requires i + fmt.bits / 8 <= |buf| && fmt.bits in {8, 16}
  {
    if fmt.bits == 8 then (buf[i] - 128) * 256
    else
      var hi: int, lo: int := buf[i + 1], buf[i];
      var w := hi * 256 + lo;
      if w >= 0x8000 then w - 0x10000 else w
  }

  /** One sample into each history. */
  function Shifted(p: Player, l: int, r: int): (q: Player)
    ensures PlayerOk(p) ==> PlayerOk(q)
  {
    p.(hl := p.hl[1..] + [l], hr := p.hr[1..] + [r])
  }

  lemma ShiftedParts(p: Player, l: int, r: int)
    ensures var q := Shifted(p, l, r);
      q.fmt == p.fmt && q.phase == p.phase && q.buf == p.buf && q.underruns == p.underruns
  {
  }

  /** The next frame into the histories, zeros when the buffer has less than one. */
  function Take(p: Player): Player
    requires PlayerOk(p)
  {
    var n := Frame(p.fmt);
    if |p.buf| >= n then
      var l := Decode(p.fmt, p.buf, 0);
      var r := if p.fmt.channels == 2 then Decode(p.fmt, p.buf, p.fmt.bits / 8) else l;
      var dry := |p.buf| < 2 * n && p.underruns < MAX_COUNT;
      Shifted(p, l, r).(buf := p.buf[n..], underruns := if dry then p.underruns + 1 else p.underruns)
    else
      Shifted(p, 0, 0)
  }

  /** The player once a frame due has been taken, and where its output lies. */
  function Fed(p: Player): (r: Player)
    requires PlayerOk(p)
    ensures PlayerOk(r) && r.phase < ONE && r.fmt == p.fmt
  {
    if p.phase >= ONE then Take(p).(phase := p.phase - ONE) else p
  }

  /** One native sample. */
  function Play(p: Player): (r: Player)
    requires PlayerOk(p)
    ensures PlayerOk(r) && r.fmt == p.fmt
  {
    Fed(p).(phase := Fed(p).phase + StepOf(p.fmt.rate))
  }

  /** A new player, due a frame at once. */
  function Fresh(fmt: Fmt): (p: Player)
    requires FmtOk(fmt)
    ensures PlayerOk(p)
  {
    Player(fmt, ONE, [], seq(TAPS, _ => 0), seq(TAPS, _ => 0), 0)
  }

  // ---------------- what a frame says ----------------

  datatype Stereo = Stereo(left: int, right: int)

  function ByteOf(x: int): u8 { x % 256 }

  function SampleBytes(bits: int, x: int): seq<u8> {
    if bits == 8 then [ByteOf(x / 256 + 128)] else [ByteOf(x), ByteOf(x / 256)]
  }

  /** A frame as a WAV file holds it: left first, 8 bits unsigned or 16 signed, low byte first. */
  function FrameBytes(f: Fmt, s: Stereo): seq<u8> {
    SampleBytes(f.bits, s.left) + if f.channels == 2 then SampleBytes(f.bits, s.right) else []
  }

  /** Sounds a format can say: 16 signed bits, of which 8-bit formats have the high ones, and one-channel
      formats the same on both sides. */
  predicate Says(f: Fmt, s: Stereo) {
    && -32768 <= s.left <= 32767 && -32768 <= s.right <= 32767
    && (f.bits == 8 ==> s.left % 256 == 0 && s.right % 256 == 0) && (f.channels == 1 ==> s.left == s.right)
  }

  function FramesBytes(f: Fmt, fs: seq<Stereo>): seq<u8> {
    if fs == [] then [] else FrameBytes(f, fs[0]) + FramesBytes(f, fs[1..])
  }

  lemma SampleBack(bits: int, x: int, buf: seq<u8>, i: nat)
    requires bits in {8, 16} && -32768 <= x <= 32767 && (bits == 8 ==> x % 256 == 0)
    requires i + bits / 8 <= |buf| && buf[i..i + bits / 8] == SampleBytes(bits, x)
    ensures Decode(Fmt(0, bits, 1), buf, i) == x
  {
    assert buf[i..i + bits / 8][0] == buf[i];
    if bits == 16 {
      assert buf[i..i + 2][1] == buf[i + 1];
      assert x == 256 * (x / 256) + x % 256;
    }
  }

  lemma DecodeBits(f: Fmt, buf: seq<u8>, i: nat)
    requires i + f.bits / 8 <= |buf| && f.bits in {8, 16}
    ensures Decode(f, buf, i) == Decode(Fmt(0, f.bits, 1), buf, i)
  {
  }

  /** A take leaves the oldest frame's two sounds newest in the two histories, and the other bytes. */
  lemma FrameTaken(p: Player, s: Stereo, rest: seq<u8>)
    requires PlayerOk(p) && Says(p.fmt, s) && p.buf == FrameBytes(p.fmt, s) + rest
    ensures Take(p).hl == p.hl[1..] + [s.left] && Take(p).hr == p.hr[1..] + [s.right] && Take(p).buf == rest
  {
    hide Decode;
    var n := p.fmt.bits / 8;
    var l := SampleBytes(p.fmt.bits, s.left);
    assert |l| == n && p.buf[0..n] == l;
    SampleBack(p.fmt.bits, s.left, p.buf, 0);
    DecodeBits(p.fmt, p.buf, 0);
    if p.fmt.channels == 2 {
      assert p.buf[n..n + n] == SampleBytes(p.fmt.bits, s.right);
      SampleBack(p.fmt.bits, s.right, p.buf, n);
      DecodeBits(p.fmt, p.buf, n);
    }
    hide SampleBytes;
    assert |FrameBytes(p.fmt, s)| == Frame(p.fmt);
    assert p.buf[Frame(p.fmt)..] == rest;
  }

  /** With less than a frame waiting a take is of silence, and the bytes stay. */
  lemma SilenceTaken(p: Player)
    requires PlayerOk(p) && |p.buf| < p.fmt.bits / 8 * p.fmt.channels
    ensures Take(p) == p.(hl := p.hl[1..] + [0], hr := p.hr[1..] + [0])
  {
  }

  // ---------------- the doubled history and the half table ----------------

  function Backwards(r: Row): Row { seq(TAPS, i requires 0 <= i < TAPS => r[TAPS - 1 - i]) }

  /** Row 128 - p is row p backwards. */
  predicate Mirrored(coef: seq<Row>) {
    |coef| == PHASES + 1 && forall p :: 0 <= p <= PHASES ==> coef[PHASES - p] == Backwards(coef[p])
  }

  /** The stored half of a table. */
  predicate HalfOf(half: seq<Row>, coef: seq<Row>) { |coef| == PHASES + 1 && half == coef[..PHASES / 2 + 1] }

  /** Every sample is written twice, so the newest 24 always lie in a row. */
  ghost predicate Doubled(hist: seq<int>) {
    |hist| == 2 * TAPS && forall i :: 0 <= i < TAPS ==> hist[i] == hist[i + TAPS]
  }

  class PcmPlayer {
    const half: seq<Row>
    ghost const coef: seq<Row>
    var fmt: Fmt
    var frame: int
    var at: nat
    var step: int
    var phase: int
    const histL: array<int>
    const histR: array<int>
    var underruns: int
    var buf: seq<u8>

    /** The player these fields stand for. */
    ghost function Abs(): Player
      requires histL.Length == histR.Length == 2 * TAPS && at < TAPS
      reads this, histL, histR
    {
      Player(fmt, phase, buf, histL[at..at + TAPS], histR[at..at + TAPS], underruns)
    }

    ghost predicate Valid()
      reads this, histL, histR
    {
      && Mirrored(coef) && HalfOf(half, coef) && histL != histR && at < TAPS
      && histL.Length == 2 * TAPS && histR.Length == 2 * TAPS
      && Doubled(histL[..]) && Doubled(histR[..]) && PlayerOk(Abs())
      && frame == Frame(fmt) && step == StepOf(fmt.rate)
    }

    constructor (stored: seq<Row>, ghost full: seq<Row>, f: Fmt)
      requires Mirrored(full) && HalfOf(stored, full) && FmtOk(f)
      ensures Valid() && Abs() == Fresh(f) && coef == full && fresh(histL) && fresh(histR)
    {
      half, coef := stored, full;
      fmt, frame, step, phase, at, underruns, buf := f, Frame(f), StepOf(f.rate), ONE, 0, 0, [];
      histL, histR := new int[2 * TAPS](_ => 0), new int[2 * TAPS](_ => 0);
    }

    /** Bytes at the end of the buffer, up to its size. */
    method Put(src: seq<u8>) returns (n: nat)
      requires Valid()
      modifies this`buf
      ensures Valid() && n == (if |src| <= BUF_SIZE - |old(buf)| then |src| else BUF_SIZE - |old(buf)|)
      ensures Abs() == old(Abs()).(buf := old(buf) + src[..n])
    {
      n := if |src| <= BUF_SIZE - |buf| then |src| else BUF_SIZE - |buf|;
      buf := buf + src[..n];
    }

    /** An empty buffer; the histories stay. */
    method Clear()
      requires Valid()
      modifies this`buf
      ensures Valid() && Abs() == old(Abs()).(buf := [])
    {
      buf := [];
    }

    /** A sample goes where the oldest was, and 24 on. */
    method Store(hist: array<int>, x: int)
      requires hist.Length == 2 * TAPS && at < TAPS && Doubled(hist[..])
      modifies hist
      ensures Doubled(hist[..])
      ensures var next := if at + 1 == TAPS then 0 else at + 1;
        hist[next..next + TAPS] == old(hist[at..at + TAPS])[1..] + [x]
    {
      ghost var was := hist[..];
      hist[at], hist[at + TAPS] := x, x;
      assert hist[..] == was[at := x][at + TAPS := x];
    }

    /** One sample into each history. */
    method Shift(l: int, r: int)
      requires Valid()
      modifies this`at, histL, histR
      ensures Valid() && Abs() == Shifted(old(Abs()), l, r)
    {
      hide Mirrored, HalfOf, Doubled, PlayerOk, StepOf, Shifted;
      ghost var q := Shifted(Abs(), l, r);
      ShiftedParts(Abs(), l, r);
      StoreBoth(l, r);
      at := if at + 1 == TAPS then 0 else at + 1;
    }

    method StoreBoth(l: int, r: int)
      requires histL.Length == histR.Length == 2 * TAPS && at < TAPS && histL != histR
      requires Doubled(histL[..]) && Doubled(histR[..])
      modifies histL, histR
      ensures Doubled(histL[..]) && Doubled(histR[..])
      ensures var next, q := if at + 1 == TAPS then 0 else at + 1, Shifted(old(Abs()), l, r);
        histL[next..next + TAPS] == q.hl && histR[next..next + TAPS] == q.hr
    {
      hide Doubled, PlayerOk;
      Store(histL, l);
      ghost var hl := histL[..];
      Store(histR, r);
      assert histL[..] == hl;
      assert forall i, j :: 0 <= i <= j <= 2 * TAPS ==> histL[i..j] == hl[i..j];
    }

    /** A frame from the buffer into the histories, silence with none whole. */
    method TakeFrame()
      requires Valid()
      modifies this`buf, this`at, this`underruns, histL, histR
      ensures Valid() && Abs() == Take(old(Abs()))
    {
      hide Mirrored, HalfOf, Decode, Doubled;
      var l, r := 0, 0;
      var level := |buf|;
      if level >= frame {
        l := Decode(fmt, buf, 0);
        r := if fmt.channels == 2 then Decode(fmt, buf, fmt.bits / 8) else l;
        buf := buf[frame..];
        if level < 2 * frame && underruns < MAX_COUNT {
          underruns := underruns + 1;
        }
      }
      Shift(l, r);
    }

    /** Row p of the full table times each history, from the stored half. */
    method DotBoth(p: nat, hl: Row, hr: Row) returns (a: int, b: int)
      requires Mirrored(coef) && HalfOf(half, coef) && p <= PHASES
      ensures a == Dot(coef[p], hl, TAPS) && b == Dot(coef[p], hr, TAPS)
    {
      a, b := 0, 0;
      if p <= PHASES / 2 {
        var c := half[p];
        for i := 0 to TAPS
          invariant a == Dot(c, hl, i) && b == Dot(c, hr, i)
        {
          a := a + c[i] * hl[i];
          b := b + c[i] * hr[i];
        }
      } else {
        var c := half[PHASES - p];
        assert coef[PHASES - (PHASES - p)] == Backwards(coef[PHASES - p]);
        for i := 0 to TAPS
          invariant a == Dot(coef[p], hl, i) && b == Dot(coef[p], hr, i)
        {
          a := a + c[TAPS - 1 - i] * hl[i];
          b := b + c[TAPS - 1 - i] * hr[i];
        }
      }
    }

    /** The next native sample: the value the resampler gives over the whole table and a plain shift
        register. */
    method Sample() returns (left: int, right: int)
      requires Valid()
      modifies this`buf, this`at, this`underruns, this`phase, histL, histR
      ensures Valid() && Abs() == Play(old(Abs()))
      ensures left == At(coef, Fed(old(Abs())).hl, Fed(old(Abs())).phase)
      ensures right == At(coef, Fed(old(Abs())).hr, Fed(old(Abs())).phase)
    {
      hide Mirrored, HalfOf, Dot, Doubled, Take;
      if phase >= ONE {
        TakeFrame();
        phase := phase - ONE;
      }
      var p, f := phase / 0x2000000, phase / 512 % 0x10000;
      var hl, hr := histL[at..at + TAPS], histR[at..at + TAPS];
      var al, ar := DotBoth(p, hl, hr);
      var bl, br := DotBoth(p + 1, hl, hr);
      left, right := Blend(al, bl, f), Blend(ar, br, f);
      phase := phase + step;
    }
  }

  // ---------------- the machine's own count ----------------

  /** What the machine keeps of a player: its phase, the bytes waiting and its underruns. */
  datatype Meter = Meter(phase: int, level: int, underruns: int)

  function Metered(p: Player): Meter { Meter(p.phase, |p.buf|, p.underruns) }

  function Plays(p: Player, n: nat): (r: Player)
    requires PlayerOk(p)
    ensures PlayerOk(r) && r.fmt == p.fmt
  {
    if n == 0 then p else Play(Plays(p, n - 1))
  }

  /** The frames pcm_sample takes over n samples, buffer or no buffer. */
  function Takes(phase: int, step: int, n: nat): int {
    if n == 0 then 0 else (phase + (n - 1) * step) / ONE
  }

  /** n samples at once: a frame for each take the buffer has one for, and an underrun when it runs dry. */
  function MeterAfter(m: Meter, frame: int, step: int, n: nat): Meter
    requires frame > 0
  {
    var takes, frames := Takes(m.phase, step, n), m.level / frame;
    Meter(m.phase + n * step - takes * ONE,
          m.level - (if takes > frames then frames else takes) * frame,
          if frames > 0 && takes >= frames && m.underruns < MAX_COUNT then m.underruns + 1 else m.underruns)
  }

  /** One more take, and where it leaves the phase. */
  lemma TakesMore(phase: int, step: int, n: nat)
    requires 0 <= phase < 2 * ONE && 0 <= step < ONE
    ensures var x := phase + n * step - Takes(phase, step, n) * ONE;
      0 <= x < 2 * ONE && Takes(phase, step, n + 1) == Takes(phase, step, n) + (if x >= ONE then 1 else 0)
  {
    var t := Takes(phase, step, n);
    if n > 0 {
      var a := phase + (n - 1) * step;
      assert n * step == (n - 1) * step + step;
      assert a == ONE * t + a % ONE;
    }
    var x := phase + n * step - t * ONE;
    assert (n + 1 - 1) * step == n * step;
    assert (t * ONE + x) / ONE == t + x / ONE;
  }

  /** n samples one at a time: the frames taken, and the phase left. */
  function SingleTakes(phase: int, step: int, n: nat): (int, int) {
    if n == 0 then (0, phase)
    else
      var r := SingleTakes(phase, step, n - 1);
      if r.1 >= ONE then (r.0 + 1, r.1 - ONE + step) else (r.0, r.1 + step)
  }

  /** The count in one computation is the count one by one. */
  lemma {:induction false} TakesAreSingle(phase: int, step: int, n: nat)
    requires 0 <= phase < 2 * ONE && 0 <= step < ONE
    ensures SingleTakes(phase, step, n) == (Takes(phase, step, n), phase + n * step - Takes(phase, step, n) * ONE)
  {
    if n > 0 {
      TakesAreSingle(phase, step, n - 1);
      TakesMore(phase, step, n - 1);
      hide Takes;
      var t, u := Takes(phase, step, n - 1), Takes(phase, step, n);
      PhaseMore(phase, step, n - 1, t, phase + (n - 1) * step - t * ONE >= ONE);
      assert u == t || u == t + 1;
    }
  }

  const WORD64 := ONE * ONE

  /** In 64 bits the takes come modulo 2^32, and the phase comes whole: x is the phase before the last
      sample's take, and y the phase after all. */
  lemma WrappedTakes(x: nat, y: int)
    requires 0 <= y - x / ONE * ONE < 2 * ONE
    ensures var takes := x % WORD64 / ONE;
      takes == x / ONE % ONE && (y - takes * ONE) % WORD64 == y - x / ONE * ONE
  {
    WrappedWord(x);
    WrappedPhase(y, x / ONE);
  }

  /** And so against n single samples. */
  lemma WrappedSingle(phase: int, step: int, n: nat, x: int, y: int)
    requires n > 0 && 0 <= phase < 2 * ONE && 0 <= step < ONE
    requires x == phase + (n - 1) * step && y == phase + n * step
    ensures var r, takes := SingleTakes(phase, step, n), x % WORD64 / ONE;
      takes == r.0 % ONE && (y - takes * ONE) % WORD64 == r.1
  {
    SinglePhase(phase, step, n, x, y);
    hide SingleTakes;
    WrappedTakes(x, y);
  }

  lemma SinglePhase(phase: int, step: int, n: nat, x: int, y: int)
    requires n > 0 && 0 <= phase < 2 * ONE && 0 <= step < ONE
    requires x == phase + (n - 1) * step && y == phase + n * step
    ensures SingleTakes(phase, step, n) == (x / ONE, y - x / ONE * ONE)
    ensures 0 <= x && 0 <= y - x / ONE * ONE < 2 * ONE
  {
    TakesAreSingle(phase, step, n);
    TakesMore(phase, step, n);
    NotNegative(n - 1, step);
    assert Takes(phase, step, n) == x / ONE;
    hide SingleTakes, Takes;
  }

  lemma NotNegative(a: nat, b: nat)
    ensures a * b >= 0
  {
  }

  lemma WrappedWord(x: nat)
    ensures x % WORD64 / ONE == x / ONE % ONE
  {
    var t := x / ONE;
    assert x == ONE * t + x % ONE && t == ONE * (t / ONE) + t % ONE;
    assert x == WORD64 * (t / ONE) + (ONE * (t % ONE) + x % ONE);
    assert x % WORD64 == ONE * (t % ONE) + x % ONE;
  }

  lemma WrappedPhase(y: int, t: int)
    requires 0 <= y - t * ONE < 2 * ONE
    ensures (y - t % ONE * ONE) % WORD64 == y - t * ONE
  {
    assert t == ONE * (t / ONE) + t % ONE;
    assert y - t % ONE * ONE == WORD64 * (t / ONE) + (y - t * ONE);
  }

  /** An underrun is counted when a level of a frame or more becomes one of less. */
  lemma MeterDry(m: Meter, f: int, step: int, n: nat)
    requires f > 0 && 0 <= m.phase < 2 * ONE && 0 <= step < ONE && m.level >= 0
    ensures var a := MeterAfter(m, f, step, n);
      a.underruns == if m.level >= f > a.level && m.underruns < MAX_COUNT then m.underruns + 1 else m.underruns
  {
    TakesRise(m.phase, step, n);
    hide Takes;
    var t, frames := Takes(m.phase, step, n), m.level / f;
    Left(m.level, f, frames, t, frames - t, m.level % f);
    Left(m.level, f, frames, 0, frames, m.level % f);
  }

  /** Takes counted modulo 2^32 tell how many of frames were taken. */
  predicate Countable(takes: int, frames: int) { takes < ONE || takes % ONE >= frames }

  /** They do not two days after a byte is played at half the native rate: 2^32 frames are due, none by
      the count. */
  lemma TakesWrap()
    ensures var f := Fmt(NATIVE / 2, 8, 1);
      FmtOk(f) && !Countable(SingleTakes(Fresh(f).phase, StepOf(f.rate), 2 * ONE - 1).0, 1 / Frame(f))
  {
    TakesAreSingle(ONE, ONE / 2, 2 * ONE - 1);
    hide SingleTakes;
  }

  lemma PlayMeter(p: Player)
    requires PlayerOk(p)
    ensures var f, s := Frame(p.fmt), StepOf(p.fmt.rate);
      var takes := p.phase >= ONE;
      var got := takes && |p.buf| >= f;
      Metered(Play(p)) == Meter((if takes then p.phase - ONE else p.phase) + s, |p.buf| - (if got then f else 0),
                                if got && |p.buf| < 2 * f && p.underruns < MAX_COUNT then p.underruns + 1
                                  else p.underruns)
  {
  }

  /** One sample more of the closed form. */
  lemma MeterMore(m: Meter, f: int, step: int, n: nat)
    requires f > 0 && 0 <= m.phase < 2 * ONE && 0 <= step < ONE && m.level >= 0
    ensures var a, b := MeterAfter(m, f, step, n), MeterAfter(m, f, step, n + 1);
      var takes := a.phase >= ONE;
      var got := takes && a.level >= f;
      b == Meter((if takes then a.phase - ONE else a.phase) + step, a.level - (if got then f else 0),
                 if got && a.level < 2 * f && a.underruns < MAX_COUNT then a.underruns + 1 else a.underruns)
  {
    TakesMore(m.phase, step, n);
    TakesRise(m.phase, step, n);
    hide Takes;
    var t, frames := Takes(m.phase, step, n), m.level / f;
    var takes := m.phase + n * step - t * ONE >= ONE;
    PhaseMore(m.phase, step, n, t, takes);
    LevelMore(m.level, f, frames, t, takes);
  }

  lemma PhaseMore(phase: int, step: int, n: nat, t: int, takes: bool)
    ensures phase + (n + 1) * step - (if takes then t + 1 else t) * ONE ==
            (if takes then phase + n * step - t * ONE - ONE else phase + n * step - t * ONE) + step
  {
    assert (n + 1) * step == n * step + step;
  }

  /** The level after one take more. */
  lemma LevelMore(level: int, f: int, frames: int, t: int, takes: bool)
    requires f > 0 && level >= 0 && frames == level / f && t >= 0
    ensures var done := if t > frames then frames else t;
      var more := if takes then t + 1 else t;
      var a := level - done * f;
      && level - (if more > frames then frames else more) * f == a - (if takes && a >= f then f else 0)
      && (a >= f <==> t < frames) && (t < frames ==> (a < 2 * f <==> t + 1 == frames))
  {
    assert level == frames * f + level % f;
    Left(level, f, frames, t, frames - t, level % f);
  }

  lemma TakesRise(phase: int, step: int, n: nat)
    requires 0 <= phase && 0 <= step
    ensures 0 <= Takes(phase, step, n)
  {
  }

  /** What t takes leave of a level: d frames more and a part of one. */
  lemma Left(level: int, f: int, frames: int, t: int, d: int, rest: int)
    requires f > 0 && level == frames * f + rest && 0 <= rest < f && d == frames - t
    ensures level - t * f == d * f + rest && level - (t + 1) * f == level - t * f - f && level - frames * f == rest
    ensures (d >= 1 ==> d * f >= f) && (d >= 2 ==> d * f >= 2 * f) && (d == 1 ==> d * f == f)
  {
    assert frames * f == (d + t) * f == d * f + t * f;
    assert (t + 1) * f == t * f + f;
    if d >= 1 { assert (d - 1) * f >= 0; assert d * f == (d - 1) * f + f; }
    if d >= 2 { assert (d - 2) * f >= 0; assert d * f == (d - 2) * f + 2 * f; }
  }

  /** The closed form is what the player does, sample by sample. */
  lemma {:induction false} ClosedForm(p: Player, n: nat)
    requires PlayerOk(p)
    ensures Metered(Plays(p, n)) == MeterAfter(Metered(p), Frame(p.fmt), StepOf(p.fmt.rate), n)
  {
    hide Play, MeterAfter, PlayerOk, StepOf;
    var f, s := Frame(p.fmt), StepOf(p.fmt.rate);
    PlayerBounds(p);
    if n > 0 {
      ClosedForm(p, n - 1);
      PlayMeter(Plays(p, n - 1));
      MeterMore(Metered(p), f, s, n - 1);
    } else {
      MeterNow(Metered(p), f, s);
    }
  }

  lemma PlayerBounds(p: Player)
    requires PlayerOk(p)
    ensures Frame(p.fmt) > 0 && 0 <= p.phase < 2 * ONE && 0 <= StepOf(p.fmt.rate) < ONE
  {
  }

  lemma MeterNow(m: Meter, f: int, step: int)
    requires f > 0 && m.level >= 0
    ensures MeterAfter(m, f, step, 0) == m
  {
  }

  // ---------------- what is written is what plays ----------------

  predicate SaysAll(f: Fmt, fs: seq<Stereo>) { forall i :: 0 <= i < |fs| ==> Says(f, fs[i]) }

  function Lefts(fs: seq<Stereo>): seq<int> { seq(|fs|, i requires 0 <= i < |fs| => fs[i].left) }

  function Rights(fs: seq<Stereo>): seq<int> { seq(|fs|, i requires 0 <= i < |fs| => fs[i].right) }

  /** The last 24 sounds once xs have come after h. */
  function Newest(h: Row, xs: seq<int>): Row { (h + xs)[|xs|..] }

  lemma NewestMore(h: Row, xs: seq<int>, x: int)
    ensures Newest(h, xs)[1..] + [x] == Newest(h, xs + [x])
  {
  }

  lemma FramesFirst(f: Fmt, fs: seq<Stereo>, k: nat)
    requires k < |fs|
    ensures FramesBytes(f, fs[k..]) == FrameBytes(f, fs[k]) + FramesBytes(f, fs[k + 1..])
    ensures Lefts(fs[..k + 1]) == Lefts(fs[..k]) + [fs[k].left]
    ensures Rights(fs[..k + 1]) == Rights(fs[..k]) + [fs[k].right]
  {
    assert fs[k..][1..] == fs[k + 1..];
  }

  /** The frames waiting are heard in the order they were written, one to a take, and none else while they
      last: after n samples the histories hold the newest of those taken, and the rest wait. */
  lemma {:induction false} FramesPlayed(p: Player, fs: seq<Stereo>, rest: seq<u8>, n: nat)
    requires PlayerOk(p) && SaysAll(p.fmt, fs) && p.buf == FramesBytes(p.fmt, fs) + rest
    requires SingleTakes(p.phase, StepOf(p.fmt.rate), n).0 <= |fs|
    ensures var q, t := Plays(p, n), SingleTakes(p.phase, StepOf(p.fmt.rate), n);
      && 0 <= t.0 && q.phase == t.1 && q.buf == FramesBytes(p.fmt, fs[t.0..]) + rest
      && q.hl == Newest(p.hl, Lefts(fs[..t.0])) && q.hr == Newest(p.hr, Rights(fs[..t.0]))
  {
    hide Decode, StepOf, FramesBytes, FrameBytes, Says, PlayerOk, Take, Lefts, Rights, Newest;
    var step := StepOf(p.fmt.rate);
    if n > 0 {
      var t := SingleTakes(p.phase, step, n - 1);
      FramesPlayed(p, fs, rest, n - 1);
      var q := Plays(p, n - 1);
      if t.1 >= ONE {
        var k := t.0;
        FramesFirst(p.fmt, fs, k);
        assert FrameBytes(p.fmt, fs[k]) + FramesBytes(p.fmt, fs[k + 1..]) + rest
            == FrameBytes(p.fmt, fs[k]) + (FramesBytes(p.fmt, fs[k + 1..]) + rest);
        FrameTaken(q, fs[k], FramesBytes(p.fmt, fs[k + 1..]) + rest);
        NewestMore(p.hl, Lefts(fs[..k]), fs[k].left);
        NewestMore(p.hr, Rights(fs[..k]), fs[k].right);
      }
    } else {
      NothingTaken(p, fs);
    }
  }

  lemma NothingTaken(p: Player, fs: seq<Stereo>)
    ensures fs[0..] == fs && Newest(p.hl, Lefts(fs[..0])) == p.hl && Newest(p.hr, Rights(fs[..0])) == p.hr
  {
  }

  lemma NewestConstant(p: Player, fs: seq<Stereo>, s: Stereo)
    requires |fs| >= 24 && forall i :: 0 <= i < |fs| ==> fs[i] == s
    ensures Constant(Newest(p.hl, Lefts(fs)), s.left) && Constant(Newest(p.hr, Rights(fs)), s.right)
  {
  }

  /** Once 24 frames of the same sound have been taken that sound comes out, on each side its own, through
      any table whose rows sum to one. */
  lemma ConstantHeard(p: Player, s: Stereo, fs: seq<Stereo>, rest: seq<u8>, n: nat, coef: seq<Row>)
    requires PlayerOk(p) && SaysAll(p.fmt, fs) && p.buf == FramesBytes(p.fmt, fs) + rest && TableOk(coef)
    requires forall i :: 0 <= i < |fs| ==> fs[i] == s
    requires 24 <= SingleTakes(p.phase, StepOf(p.fmt.rate), n + 1).0 <= |fs|
    ensures var q := Fed(Plays(p, n));
      At(coef, q.hl, q.phase) == s.left && At(coef, q.hr, q.phase) == s.right
  {
    hide Decode, StepOf, FramesBytes, SaysAll, PlayerOk, Take, At, TableOk, SingleTakes, Newest, Constant, Lefts;
    hide Rights;
    FramesPlayed(p, fs, rest, n + 1);
    var k := SingleTakes(p.phase, StepOf(p.fmt.rate), n + 1).0;
    var q := Fed(Plays(p, n));
    assert q.hl == Newest(p.hl, Lefts(fs[..k])) && q.hr == Newest(p.hr, Rights(fs[..k]));
    NewestConstant(p, fs[..k], s);
    PlayerBounds(q);
    ConstantUnchanged(coef, q.hl, s.left, q.phase);
    ConstantUnchanged(coef, q.hr, s.right, q.phase);
  }

  /** From its opening on a player takes as many frames in a second of samples as its rate says. */
  lemma SecondTakes(rate: int)
    requires 0 < rate <= 48000
    ensures SingleTakes(Fresh(Fmt(rate, 8, 1)).phase, StepOf(rate), 49716).0 == rate
  {
    var step := StepOf(rate);
    TakesAreSingle(ONE, step, 49716);
    hide SingleTakes;
    assert rate * ONE - 49716 < 49716 * step <= rate * ONE;
  }

  /** A player as it is opened: nothing waits or has run dry, the histories are silent, and the first sample
      takes a frame. */
  lemma FreshMeans(f: Fmt)
    ensures FmtOk(f) <==> 1 <= f.rate <= 48000 && (f.bits == 8 || f.bits == 16) && (f.channels == 1 || f.channels == 2)
    ensures FmtOk(f) ==>
      var p := Fresh(f);
      && p.fmt == f && p.phase == 0x1_0000_0000 && p.buf == [] && p.underruns == 0
      && forall i :: 0 <= i < 24 ==> p.hl[i] == 0 && p.hr[i] == 0
  {
  }

  /** One sample of a player: a frame falls due with every 2^32 of the phase, which gains that many by the rate
      over 49716; and the last whole frame taken is counted as running dry, up to 2^31 - 1. */
  lemma PlayMeans(p: Player)
    requires PlayerOk(p)
    ensures var due, frame := p.phase >= 0x1_0000_0000, p.fmt.bits / 8 * p.fmt.channels;
      var q := Play(p);
      && q.phase == (if due then p.phase - 0x1_0000_0000 else p.phase) + p.fmt.rate * 0x1_0000_0000 / 49716
      && q.buf == (if due && |p.buf| >= frame then p.buf[frame..] else p.buf) && q.fmt == p.fmt
      && q.underruns == p.underruns
           + (if due && frame <= |p.buf| < 2 * frame && p.underruns < 2147483647 then 1 else 0)
      && (due ==> q.hl[..23] == p.hl[1..] && q.hr[..23] == p.hr[1..]) && (!due ==> q.hl == p.hl && q.hr == p.hr)
  {
    hide Decode;
  }
}
