/** The engines of the mix, the OPL2 and the PCM: player (src/core/aud/mix.c), and what becomes of a change
    on its way to the render: made at once to engines driven in the machine's time, and stamped for the
    render's, which then speak the same samples later. */
module AudSound {
  import opened Common
  import opened OplSpec
  import opened OplRuns
  import opened OplMirror
  import opened Rsmp
  import opened Pcm

  const UNMAPPED := 0xFFFF

  /** Where the OPL2 is mapped, its engine, and the player while it is open. */
  datatype Sound = Sound(word: int, m: Machine, pcm: Option<Player>)

  predicate SoundOk(s: Sound) { AtRest(s.m) && (s.pcm.Some? ==> PlayerOk(s.pcm.value)) }

  /** The log-sine and exponential tables, and the resampler's. */
  datatype Tables = Tables(rom: seq<int>, coef: seq<Row>)

  predicate TablesOk(t: Tables) { RomOk(t.rom) && |t.coef| == PHASES + 1 }

  const SILENCE: Stereo := Stereo(0, 0)

  /** One sample of the player: its two channels. */
  function PcmVoice(p: Player, coef: seq<Row>): Stereo
    requires PlayerOk(p) && |coef| == PHASES + 1
  {
    Stereo(At(coef, Fed(p).hl, Fed(p).phase), At(coef, Fed(p).hr, Fed(p).phase))
  }

  /** The engines after one sample; an unmapped OPL2 stands still. */
  function Ticked(s: Sound, t: Tables): (r: Sound)
    requires SoundOk(s) && TablesOk(t)
    ensures SoundOk(r) && r.word == s.word
  {
    Sound(s.word, if s.word != UNMAPPED then Sampled(s.m, t.rom) else s.m,
          if s.pcm.Some? then Some(Play(s.pcm.value)) else None)
  }

  /** The sample they make: summed and clamped. */
  function Voice(s: Sound, t: Tables): Stereo
    requires SoundOk(s) && TablesOk(t)
  {
    var o := if s.word != UNMAPPED then Sample(s.m, t.rom).1 else 0;
    var p := if s.pcm.Some? then PcmVoice(s.pcm.value, t.coef) else SILENCE;
    Stereo(Clamp16(o + p.left), Clamp16(o + p.right))
  }

  lemma WordFits(m: Machine, rom: seq<int>)
    requires AtRest(m) && RomOk(rom)
    ensures -32768 <= Sample(m, rom).1 <= 32767
  {
    hide WellFormed, Coherent, KeysAgree, HeldOk, Accumulator, Commit, Rendered, DacWord, RomOk, QueueOk;
    var c := Commit(m).chip;
    WordInRange(Accumulator(c, rom));
  }

  lemma WordInRange(acc: int)
    ensures -32768 <= DacWord(acc) <= 32767
  {
    var s := Clamp16(acc);
    var e := DacExponent(s);
    assert 0 <= e <= 6;
    hide DacExponent;
    assert POW2[0] == 1 && POW2[1] == 2 && POW2[2] == 4 && POW2[3] == 8;
    assert POW2[4] == 16 && POW2[5] == 32 && POW2[6] == 64;
    assert DacWord(acc) == (s / POW2[e]) * POW2[e];
    hide DacWord;
    FloorInRange(s, POW2[e]);
  }

  /** A word's low bits cleared. */
  lemma FloorInRange(s: int, w: int)
    requires -32768 <= s <= 32767 && w in {1, 2, 4, 8, 16, 32, 64}
    ensures -32768 <= s / w * w <= 32767
  {
    if w == 1 {} else if w == 2 {} else if w == 4 {} else if w == 8 {} else if w == 16 {} else if w == 32 {}
  }

  /** What is heard: the player's two channels each on its own side, the OPL2's word on both, and their
      sum, held to sixteen bits, when both play. */
  lemma VoiceMeans(s: Sound, t: Tables)
    requires SoundOk(s) && TablesOk(t)
    ensures var word := Sample(s.m, t.rom).1;
      && (s.word == 0xFFFF && s.pcm.None? ==> Voice(s, t) == Stereo(0, 0))
      && (s.word != 0xFFFF && s.pcm.None? ==> Voice(s, t) == Stereo(word, word))
      && (s.pcm.Some? ==>
            var p := Fed(s.pcm.value);
            var o := if s.word == 0xFFFF then 0 else word;
            var l, r := o + At(t.coef, p.hl, p.phase), o + At(t.coef, p.hr, p.phase);
            && (-32768 <= l <= 32767 ==> Voice(s, t).left == l) && (-32768 <= r <= 32767 ==> Voice(s, t).right == r)
            && (l > 32767 ==> Voice(s, t).left == 32767) && (r > 32767 ==> Voice(s, t).right == 32767)
            && (l < -32768 ==> Voice(s, t).left == -32768) && (r < -32768 ==> Voice(s, t).right == -32768))
  {
    hide AtRest, Sample, At, PlayerOk, RomOk, Fed;
    WordFits(s.m, t.rom);
  }

  /** A sound written to a player with no OPL2 mapped is the sound that is heard. */
  lemma WrittenHeard(s: Sound, w: Stereo, fs: seq<Stereo>, rest: seq<u8>, n: nat, t: Tables)
    requires SoundOk(s) && TablesOk(t) && TableOk(t.coef) && s.word == 0xFFFF && s.pcm.Some?
    requires var p := s.pcm.value;
      && PlayerOk(p) && SaysAll(p.fmt, fs) && p.buf == FramesBytes(p.fmt, fs) + rest
      && 24 <= SingleTakes(p.phase, StepOf(p.fmt.rate), n + 1).0 <= |fs|
    requires forall i :: 0 <= i < |fs| ==> fs[i] == w
    ensures Voice(Ahead(s, n, t), t) == w
  {
    hide AtRest, Sample, At, PlayerOk, RomOk, Fed, TableOk, SaysAll, StepOf, FramesBytes, SingleTakes, Idle, Plays;
    var p := s.pcm.value;
    ConstantHeard(p, w, fs, rest, n, t.coef);
    AheadParts(s, n, t);
    hide Ahead, Voice;
    SaysOne(p.fmt, fs);
    VoiceMeans(Ahead(s, n, t), t);
  }

  lemma SaysOne(f: Fmt, fs: seq<Stereo>)
    requires SaysAll(f, fs) && fs != []
    ensures -32768 <= fs[0].left <= 32767 && -32768 <= fs[0].right <= 32767
  {
  }

  // ---------------- changes ----------------

  datatype Change = Put(w: Write) | Map(word: int) | Opened(fmt: Fmt) | Data(bytes: seq<u8>) | Emptied | Closed

  /** A change the machine may send. */
  predicate ChangeOk(c: Change) {
    match c
    case Put(w) => IsReg(w.reg)
    case Map(word) => 0 <= word < 0x10000
    case Opened(f) => FmtOk(f)
    case Data(b) => 1 <= |b| <= 3
    case _ => true
  }

  function Changed(s: Sound, c: Change): (r: Sound)
    requires SoundOk(s) && ChangeOk(c)
    ensures SoundOk(r)
  {
    hide AtRest;
    match c
    case Put(w) => PushRests(s.m, w); s.(m := Push(s.m, w))
    case Map(word) => ResetRests(); s.(word := word, m := ResetMachine())
    case Opened(f) => s.(pcm := Some(Fresh(f)))
    case Data(b) => if s.pcm.Some? then s.(pcm := Some(Supplied(s.pcm.value, b))) else s
    case Emptied => if s.pcm.Some? then s.(pcm := Some(s.pcm.value.(buf := []))) else s
    case Closed => s.(pcm := None)
  }

  /** What each change does, and to nothing else: a write is pushed; mapping resets the OPL2; opening starts a
      new player; bytes go at the end of the player's buffer as far as there is room for 4096; emptying drops
      them; and closing drops the player. */
  lemma ChangedMeans(s: Sound, c: Change)
    requires SoundOk(s) && ChangeOk(c)
    ensures c.Put? ==> Changed(s, c) == Sound(s.word, Push(s.m, c.w), s.pcm)
    ensures c.Map? ==> Changed(s, c) == Sound(c.word, ResetMachine(), s.pcm)
    ensures c.Opened? ==> Changed(s, c) == Sound(s.word, s.m, Some(Fresh(c.fmt)))
    ensures c.Closed? ==> Changed(s, c) == Sound(s.word, s.m, None)
    ensures (c.Data? || c.Emptied?) && s.pcm.None? ==> Changed(s, c) == s
    ensures c.Emptied? && s.pcm.Some? ==> Changed(s, c) == Sound(s.word, s.m, Some(s.pcm.value.(buf := [])))
    ensures c.Data? && s.pcm.Some? ==>
      var p := s.pcm.value;
      var room := 4096 - |p.buf|;
      0 <= room && Changed(s, c) ==
        Sound(s.word, s.m, Some(p.(buf := p.buf + if |c.bytes| <= room then c.bytes else c.bytes[..room])))
  {
    hide AtRest, ResetMachine, Push, IsReg, Fresh;
    if c.Data? && s.pcm.Some? {
      assert c.bytes[..|c.bytes|] == c.bytes;
    }
  }

  /** Bytes into a player's buffer, as many as fit. */
  function Supplied(p: Player, b: seq<u8>): (r: Player)
    requires PlayerOk(p)
    ensures PlayerOk(r) && r.fmt == p.fmt
  {
    p.(buf := p.buf + b[..if |b| <= BUF_SIZE - |p.buf| then |b| else BUF_SIZE - |p.buf|])
  }

  /** Nothing of the change is lost: the queue has room for the write, the buffer for every byte. */
  predicate Fits(s: Sound, c: Change) {
    match c
    case Put(_) => |s.m.queue| < QUEUE_SIZE
    case Data(b) => s.pcm.Some? && |s.pcm.value.buf| + |b| <= BUF_SIZE
    case _ => true
  }

  /** A change and the sample it applies before. */
  datatype Timed = Timed(at: nat, change: Change)

  predicate DueBy(p: seq<Timed>, end: nat) { forall i :: 0 <= i < |p| ==> p[i].at <= end && ChangeOk(p[i].change) }

  // ---------------- the render's future ----------------

  /** The render's engines, at sample made with changes p to come, once they have reached sample end. */
  function Future(s: Sound, made: nat, p: seq<Timed>, end: nat, t: Tables): (r: Sound)
    requires SoundOk(s) && TablesOk(t) && DueBy(p, end)
    ensures SoundOk(r)
    decreases end - made, |p|
  {
    hide Changed, Ticked, SoundOk, TablesOk, ChangeOk;
    if |p| > 0 && p[0].at <= made then Future(Changed(s, p[0].change), made, p[1..], end, t)
    else if made < end then Future(Ticked(s, t), made + 1, p, end, t)
    else s
  }

  /** The samples they make on the way. */
  function Voices(s: Sound, made: nat, p: seq<Timed>, end: nat, t: Tables): seq<Stereo>
    requires SoundOk(s) && TablesOk(t) && DueBy(p, end)
    decreases end - made, |p|
  {
    hide Changed, Ticked, SoundOk, TablesOk, ChangeOk, Voice;
    if |p| > 0 && p[0].at <= made then Voices(Changed(s, p[0].change), made, p[1..], end, t)
    else if made < end then [Voice(s, t)] + Voices(Ticked(s, t), made + 1, p, end, t)
    else []
  }

  /** No change on the way loses anything. */
  predicate Roomy(s: Sound, made: nat, p: seq<Timed>, end: nat, t: Tables)
    requires SoundOk(s) && TablesOk(t) && DueBy(p, end)
    decreases end - made, |p|
  {
    hide Changed, Ticked, SoundOk, TablesOk, ChangeOk;
    if |p| > 0 && p[0].at <= made then
      Fits(s, p[0].change) && Roomy(Changed(s, p[0].change), made, p[1..], end, t)
    else if made < end then Roomy(Ticked(s, t), made + 1, p, end, t)
    else true
  }

  lemma {:induction false} FutureAppend(s: Sound, made: nat, p: seq<Timed>, e: Timed, end: nat, t: Tables)
    requires SoundOk(s) && TablesOk(t) && DueBy(p, end) && made <= end == e.at && ChangeOk(e.change)
    ensures DueBy(p + [e], end)
    ensures Future(s, made, p + [e], end, t) == Changed(Future(s, made, p, end, t), e.change)
    ensures Voices(s, made, p + [e], end, t) == Voices(s, made, p, end, t)
    ensures Roomy(s, made, p + [e], end, t) <==> Roomy(s, made, p, end, t) && Fits(Future(s, made, p, end, t), e.change)
    decreases end - made, |p|
  {
    hide Changed, Ticked, SoundOk, TablesOk, ChangeOk, Voice, Fits;
    assert DueBy(p + [e], end);
    if |p| > 0 && p[0].at <= made {
      assert (p + [e])[1..] == p[1..] + [e] && (p + [e])[0] == p[0];
      FutureAppend(Changed(s, p[0].change), made, p[1..], e, end, t);
    } else if made < end {
      assert |p| > 0 ==> (p + [e])[0] == p[0];
      FutureAppend(Ticked(s, t), made + 1, p, e, end, t);
    } else {
      assert p == [];
      assert (p + [e])[1..] == [];
    }
  }

  lemma {:induction false} FutureExtend(s: Sound, made: nat, p: seq<Timed>, end: nat, t: Tables)
    requires SoundOk(s) && TablesOk(t) && DueBy(p, end) && made <= end
    ensures DueBy(p, end + 1)
    ensures Future(s, made, p, end + 1, t) == Ticked(Future(s, made, p, end, t), t)
    ensures Voices(s, made, p, end + 1, t) == Voices(s, made, p, end, t) + [Voice(Future(s, made, p, end, t), t)]
    ensures Roomy(s, made, p, end + 1, t) <==> Roomy(s, made, p, end, t)
    decreases end - made, |p|
  {
    hide Changed, Ticked, SoundOk, TablesOk, ChangeOk, Voice, Fits;
    if |p| > 0 && p[0].at <= made {
      FutureExtend(Changed(s, p[0].change), made, p[1..], end, t);
    } else if made < end {
      FutureExtend(Ticked(s, t), made + 1, p, end, t);
    } else {
      assert p == [];
      assert Voices(Ticked(s, t), made + 1, [], end + 1, t) == [];
    }
  }

  // ---------------- alike but for the counts ----------------

  /** Players that differ in their underruns alone. */
  predicate PlayersAlike(a: Player, b: Player) { a.(underruns := 0) == b.(underruns := 0) }

  /** Engines that differ in what they have counted alone: drops and underruns. */
  predicate SoundAlike(a: Sound, b: Sound) {
    && a.word == b.word && Alike(a.m, b.m) && (a.pcm.Some? <==> b.pcm.Some?)
    && (a.pcm.Some? ==> PlayersAlike(a.pcm.value, b.pcm.value))
  }

  lemma PlayAlike(a: Player, b: Player)
    requires PlayerOk(a) && PlayerOk(b) && PlayersAlike(a, b)
    ensures PlayersAlike(Play(a), Play(b)) && Fed(a).hl == Fed(b).hl && Fed(a).hr == Fed(b).hr
    ensures Fed(a).phase == Fed(b).phase
  {
    hide Decode, StepOf;
  }

  lemma WordAlike(a: Machine, b: Machine, rom: seq<int>)
    requires AtRest(a) && AtRest(b) && RomOk(rom) && Alike(a, b)
    ensures Sample(a, rom).1 == Sample(b, rom).1
  {
    hide WellFormed, KeysAgree, Coherent, Apply, Follow, Rendered, IsReg, Accumulator, HeldOk;
  }

  /** They speak alike and stay alike. */
  lemma TickedAlike(a: Sound, b: Sound, t: Tables)
    requires SoundOk(a) && SoundOk(b) && TablesOk(t) && SoundAlike(a, b)
    ensures SoundAlike(Ticked(a, t), Ticked(b, t)) && Voice(a, t) == Voice(b, t)
  {
    hide AtRest, PlayerOk, RomOk, Alike, PlayersAlike, Sampled, Sample, Play, Fed, At;
    SampledAlike(a.m, b.m, t.rom);
    WordAlike(a.m, b.m, t.rom);
    if a.pcm.Some? {
      PlayAlike(a.pcm.value, b.pcm.value);
    }
  }

  lemma ChangedAlike(a: Sound, b: Sound, c: Change)
    requires SoundOk(a) && SoundOk(b) && ChangeOk(c) && SoundAlike(a, b) && Fits(a, c)
    ensures SoundAlike(Changed(a, c), Changed(b, c)) && Fits(b, c) && Changed(a, c).m.drops <= a.m.drops
  {
    hide AtRest, IsReg, ResetMachine;
    if c.Put? {
      assert |a.m.queue| == |b.m.queue|;
      PushAlike(a.m, b.m, c.w);
    } else if c.Map? {
      ResetQueue();
      DropsRest(a.m);
    }
  }

  lemma DropsRest(m: Machine)
    requires AtRest(m)
    ensures 0 <= m.drops
  {
    hide WellFormed, KeysAgree, Coherent, IsReg, HeldOk;
  }

  lemma AlikeJoins(a: Sound, b: Sound, c: Sound)
    requires SoundAlike(a, b) && SoundAlike(b, c)
    ensures SoundAlike(a, c)
  {
  }

  // ---------------- engines driven in the machine's time ----------------

  function Ahead(s: Sound, n: nat, t: Tables): (r: Sound)
    requires SoundOk(s) && TablesOk(t)
    ensures SoundOk(r) && r.word == s.word
    decreases n
  {
    hide SoundOk, TablesOk, Ticked;
    if n == 0 then s else Ahead(Ticked(s, t), n - 1, t)
  }

  /** The n samples they make. */
  function Speech(s: Sound, n: nat, t: Tables): (v: seq<Stereo>)
    requires SoundOk(s) && TablesOk(t)
    ensures |v| == n
    decreases n
  {
    hide SoundOk, TablesOk, Ticked, Voice;
    if n == 0 then [] else [Voice(s, t)] + Speech(Ticked(s, t), n - 1, t)
  }

  lemma {:induction false} AheadAdd(s: Sound, a: nat, b: nat, t: Tables)
    requires SoundOk(s) && TablesOk(t)
    ensures Ahead(s, a + b, t) == Ahead(Ahead(s, a, t), b, t)
    ensures Speech(s, a + b, t) == Speech(s, a, t) + Speech(Ahead(s, a, t), b, t)
    decreases a
  {
    hide SoundOk, TablesOk, Ticked, Voice;
    if a > 0 {
      AheadAdd(Ticked(s, t), a - 1, b, t);
    } else {
      assert [] + Speech(s, b, t) == Speech(s, b, t);
    }
  }

  /** Part by part, n samples of the engines. */
  lemma {:induction false} AheadParts(s: Sound, n: nat, t: Tables)
    requires SoundOk(s) && TablesOk(t)
    ensures Ahead(s, n, t).m == if s.word != UNMAPPED then Idle(s.m, t.rom, n) else s.m
    ensures Ahead(s, n, t).pcm == if s.pcm.Some? then Some(Plays(s.pcm.value, n)) else None
    decreases n
  {
    hide AtRest, PlayerOk, RomOk, Sampled, Play;
    if n > 0 {
      AheadParts(Ticked(s, t), n - 1, t);
      if s.pcm.Some? {
        PlaysFirst(s.pcm.value, n - 1);
      }
    }
  }

  lemma {:induction false} PlaysFirst(p: Player, n: nat)
    requires PlayerOk(p)
    ensures Plays(Play(p), n) == Plays(p, n + 1)
    decreases n
  {
    hide Play, PlayerOk;
    if n > 0 {
      PlaysFirst(p, n - 1);
    } else {
      assert Plays(p, 0) == p;
    }
  }

  // ---------------- the two times meet ----------------

  /** The render at sample made, with changes p to come, is on its way to being the directly driven
      engines d at sample clock, counts aside: it will have made the samples they made, spoken from
      sample first on, and lost nothing of any change. */
  predicate Meets(s: Sound, made: nat, p: seq<Timed>, d: Sound, clock: nat, spoken: seq<Stereo>, t: Tables) {
    && TablesOk(t) && SoundOk(s) && SoundOk(d) && made <= clock && DueBy(p, clock)
    && SoundAlike(Future(s, made, p, clock, t), d) && Roomy(s, made, p, clock, t)
    && Voices(s, made, p, clock, t) == spoken
  }

  /** Both go on by a sample. */
  lemma MeetsTick(s: Sound, made: nat, p: seq<Timed>, d: Sound, clock: nat, spoken: seq<Stereo>, t: Tables)
    requires Meets(s, made, p, d, clock, spoken, t)
    ensures Meets(s, made, p, Ticked(d, t), clock + 1, spoken + [Voice(d, t)], t)
  {
    hide SoundOk, TablesOk, SoundAlike, Future, Voices, Roomy, Ticked, Voice, ChangeOk;
    FutureExtend(s, made, p, clock, t);
    TickedAlike(Future(s, made, p, clock, t), d, t);
  }

  lemma {:induction false} MeetsAhead(s: Sound, made: nat, p: seq<Timed>, d: Sound, clock: nat, spoken: seq<Stereo>,
        n: nat, t: Tables)
    requires Meets(s, made, p, d, clock, spoken, t)
    ensures Meets(s, made, p, Ahead(d, n, t), clock + n, spoken + Speech(d, n, t), t)
    decreases n
  {
    hide SoundOk, TablesOk, SoundAlike, Future, Voices, Roomy, Ticked, Voice, DueBy;
    if n > 0 {
      MeetsTick(s, made, p, d, clock, spoken, t);
      MeetsAhead(s, made, p, Ticked(d, t), clock + 1, spoken + [Voice(d, t)], n - 1, t);
      assert spoken + [Voice(d, t)] + Speech(Ticked(d, t), n - 1, t) == spoken
        + ([Voice(d, t)] + Speech(Ticked(d, t), n - 1, t));
    } else {
      assert spoken + [] == spoken;
    }
  }

  /** A change made now to the directly driven engines, and stamped now for the render. */
  lemma MeetsChange(s: Sound, made: nat, p: seq<Timed>, d: Sound, clock: nat, spoken: seq<Stereo>, c: Change, t: Tables)
    requires Meets(s, made, p, d, clock, spoken, t) && ChangeOk(c) && Fits(d, c)
    ensures Meets(s, made, p + [Timed(clock, c)], Changed(d, c), clock, spoken, t)
  {
    hide SoundOk, TablesOk, Future, Voices, Roomy, Changed, ChangeOk, DueBy;
    FutureAppend(s, made, p, Timed(clock, c), clock, t);
    var f := Future(s, made, p, clock, t);
    assert Fits(f, c);
    ChangedAlike(f, d, c);
  }

  /** What the directly driven engines have counted is no matter to the render. */
  lemma MeetsCounted(s: Sound, made: nat, p: seq<Timed>, d: Sound, clock: nat, spoken: seq<Stereo>, e: Sound, t: Tables)
    requires Meets(s, made, p, d, clock, spoken, t) && SoundOk(e) && SoundAlike(d, e)
    ensures Meets(s, made, p, e, clock, spoken, t)
  {
    hide SoundOk, TablesOk, Future, Voices, Roomy, SoundAlike, DueBy;
    AlikeJoins(Future(s, made, p, clock, t), d, e);
  }

  /** The render takes a change it is due. */
  lemma MeetsDue(s: Sound, made: nat, p: seq<Timed>, d: Sound, clock: nat, spoken: seq<Stereo>, t: Tables)
    requires Meets(s, made, p, d, clock, spoken, t) && |p| > 0 && p[0].at <= made
    ensures ChangeOk(p[0].change) && Meets(Changed(s, p[0].change), made, p[1..], d, clock, spoken, t)
    ensures Fits(s, p[0].change) && Changed(s, p[0].change).m.drops <= s.m.drops
  {
    hide SoundOk, TablesOk, SoundAlike, Changed, ChangeOk;
    assert ChangeOk(p[0].change);
    FitsDrops(s, p[0].change);
  }

  lemma FitsDrops(s: Sound, c: Change)
    requires SoundOk(s) && ChangeOk(c) && Fits(s, c)
    ensures Changed(s, c).m.drops <= s.m.drops
  {
    hide AtRest, IsReg, ResetMachine;
    ResetQueue();
    DropsRest(s.m);
  }

  /** The render makes a sample once nothing is due: the one the directly driven engines made then. */
  lemma MeetsSample(s: Sound, made: nat, p: seq<Timed>, d: Sound, clock: nat, spoken: seq<Stereo>, t: Tables)
    requires Meets(s, made, p, d, clock, spoken, t) && (|p| > 0 ==> p[0].at > made) && made < clock
    ensures |spoken| > 0 && Voice(s, t) == spoken[0]
    ensures Meets(Ticked(s, t), made + 1, p, d, clock, spoken[1..], t)
  {
    hide SoundOk, TablesOk, SoundAlike, Ticked, Voice, DueBy;
    assert spoken == [Voice(s, t)] + Voices(Ticked(s, t), made + 1, p, clock, t);
  }

  lemma {:induction false} VoicesLength(s: Sound, made: nat, p: seq<Timed>, end: nat, t: Tables)
    requires SoundOk(s) && TablesOk(t) && DueBy(p, end) && made <= end
    ensures |Voices(s, made, p, end, t)| == end - made
    decreases end - made, |p|
  {
    hide Changed, Ticked, SoundOk, TablesOk, ChangeOk, Voice;
    if |p| > 0 && p[0].at <= made {
      VoicesLength(Changed(s, p[0].change), made, p[1..], end, t);
    } else if made < end {
      VoicesLength(Ticked(s, t), made + 1, p, end, t);
    }
  }
}
