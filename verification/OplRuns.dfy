/** What holds of the specification chip over every run: any pushes and samples after a reset
    (src/core/aud/opl.h, src/core/aud/opl.c). */
module OplRuns {
  import opened Common
  import opened OplSpec
  import opened OplCaches
  import opened OplRules

  /** Both views of a channel agree, but for what a lag holds back. */
  predicate Coherent(c: Chip)
    requires WellFormed(c)
  {
    forall n :: 0 <= n < 9 ==>
      c.mv[n] == c.cv[n] || (n < 6 && c.lag[n] && (n < 3 || c.mv[n] == c.cv[n].(fb := c.mv[n].fb)))
  }

  /** A slot is released exactly when its key is up. */
  predicate KeysAgree(c: Chip)
    requires WellFormed(c)
  {
    forall i :: 0 <= i < 18 ==> (Key(c, i) <==> c.slots[i].stage != Release)
  }

  predicate HeldOk(c: Chip) { -8170 <= c.held15 <= 8168 && -8170 <= c.held1617 <= 8168 }

  predicate CreditOk(m: Machine) {
    m.credit % 24 == 0 && 72 <= m.credit <= if |m.queue| > 0 then 192 else 96
  }

  /** What the machine is between two samples. */
  predicate AtRest(m: Machine) {
    && WellFormed(m.chip) && Coherent(m.chip) && KeysAgree(m.chip) && HeldOk(m.chip)
    && (Bit(m.chip.test, 0x80) ==> m.chip.cnt.vib == 0)
    && QueueOk(m.queue) && CreditOk(m) && 0 <= m.drops <= MAX_DROPS
  }

  /** How far the envelope timer's low zeros shift a rate (section 1.3). */
  function ShiftOf(T: int): int
    requires 0 <= T
  {
    if T % 0x2000 == 0 then 0 else TrailingZeros(T) + 1
  }

  /** What the counters of a run know of each other. The envelope timer is read on every second sample,
      so its last carry can be one sample ahead of what was read; the tremolo's clock is the
      low-frequency counter's sixth bit turning; and test bit 7 holds them all at the start. */
  predicate Clocked(n: Counters, test: u8)
    requires CountersOk(n)
  {
    && (n.carry ==> !n.sub && n.T == 0)
    && ((n.eglow == n.T % 4 && n.egshift == ShiftOf(n.T)) || (n.sub && n.T == 1 && n.eglow == 0 && n.egshift == 0))
    && (n.tstep ==> n.lfo % 64 == 0) && (n.lfo % 64 == 0 && n.lfo > 0 ==> n.tstep)
    && (Bit(test, 0x80) ==> n.vib == 0 && n.lfo == 0 && !n.tstep && n.tv == 0 && !n.tdir)
  }

  /** What a run from reset keeps, the engine's part of it and the clocks'. */
  predicate InRun(m: Machine) {
    AtRest(m) && Clocked(m.chip.cnt, m.chip.test)
  }

  lemma ResetRests()
    ensures AtRest(ResetMachine())
  {
  }

  lemma ResetRuns()
    ensures InRun(ResetMachine())
  {
    ResetRests();
    ResetCounters();
    ResetModes();
  }

  /** The counters keep each other's time, whatever test holds. */
  lemma ClocksKeep(n: Counters, before: u8, test: u8)
    requires CountersOk(n) && Clocked(n, before)
    ensures CountersOk(CountersNext(n, test)) && Clocked(CountersNext(n, test), test)
  {
    hide TrailingZeros, NoiseSteps, TremoloTurn;
    CountersStay(n, test);
    assert ShiftOf(0) == 0;
  }

  lemma ResetSlots()
    ensures var c := ResetMachine().chip;
      && WellFormed(c) && !c.nts && c.bd == 0
      && (forall i :: 0 <= i < 18 ==> c.slots[i] == Slot(0, 0x1FF, Release, Registers(0, 0, 0, 0, 0)))
      && (forall n :: 0 <= n < 9 ==> c.cv[n] == View(0, 0, false, false, 0) && c.mv[n] == c.cv[n])
      && (forall n :: 0 <= n < 9 ==> c.hist[n] == History(0, 0))
  {
  }

  lemma ResetQueue()
    ensures var m := ResetMachine(); m.queue == [] && m.credit == 96 && m.drops == 0
  {
  }

  lemma ResetModes()
    ensures var c := ResetMachine().chip; c.test == 0 && c.lag == NO_LAG
  {
  }

  lemma ResetCounters()
    ensures ResetMachine().chip.cnt == COUNTERS_RESET
  {
  }

  lemma ResetLatches()
    ensures var c := ResetMachine().chip; !c.c3 && !c.c5 && c.held15 == 0 && c.held1617 == 0
  {
  }

  lemma PushRests(m: Machine, w: Write)
    requires AtRest(m)
    ensures AtRest(Push(m, w))
  {
    hide WellFormed, KeysAgree, Coherent, IsReg;
  }

  // ---------------- late halves and writes ----------------

  /** Once the late halves have followed, both sides of every channel see the same. */
  lemma FollowEvens(c: Chip)
    requires WellFormed(c) && Coherent(c)
    ensures Follow(c).mv == c.cv
  {
    hide ViewOk, SlotOk, Out13;
  }

  lemma FollowIdle(c: Chip)
    requires WellFormed(c) && c.lag == NO_LAG
    ensures Follow(c) == c
  {
    assert Follow(c).mv == c.mv;
  }

  /** The modulator views once the late halves of channels below n have followed. */
  function HalfFollowed(c: Chip, n: int): seq<View>
    requires WellFormed(c) && 0 <= n <= 6
  {
    seq(9, j requires 0 <= j < 9 => if j < n then FollowedView(c, j) else c.mv[j])
  }

  lemma FollowNone(c: Chip)
    requires WellFormed(c)
    ensures HalfFollowed(c, 0) == c.mv
  {
  }

  lemma FollowStep(c: Chip, n: int)
    requires WellFormed(c) && 0 <= n < 6
    ensures HalfFollowed(c, n + 1) == HalfFollowed(c, n)[n := FollowedView(c, n)]
    ensures !c.lag[n] ==> HalfFollowed(c, n + 1) == HalfFollowed(c, n)
    ensures HalfFollowed(c, n)[n] == c.mv[n]
    ensures c.lag[n] ==> FollowedView(c, n) == if n < 3 then c.cv[n] else c.mv[n].(fb := c.cv[n].fb)
  {
  }

  lemma FollowAll(c: Chip)
    requires WellFormed(c)
    ensures c.(lag := NO_LAG, mv := HalfFollowed(c, 6)) == Follow(c)
  {
    assert HalfFollowed(c, 6) == Follow(c).mv;
  }

  /** What a commit starts from. */
  lemma CommitStarts(m: Machine)
    requires AtRest(m)
    ensures |m.chip.lag| == 6 && WellFormed(Follow(m.chip)) && Follow(m.chip).mv == Follow(m.chip).cv
    ensures forall i :: 0 <= i < |m.queue| ==> IsReg(m.queue[i].reg)
  {
    hide WellFormed, KeysAgree, Coherent, IsReg;
    FollowEvens(m.chip);
    WellSized(m.chip);
  }

  /** With nothing late or queued and a full credit a commit does nothing. */
  lemma CommitIdle(m: Machine)
    requires AtRest(m) && m.chip.lag == NO_LAG && m.queue == [] && m.credit == 96
    ensures Commit(m) == m
  {
    hide WellFormed, KeysAgree, Coherent;
    FollowIdle(m.chip);
  }

  lemma ApplyCoheres(c: Chip, w: Write)
    requires WellFormed(c) && c.mv == c.cv && IsReg(w.reg)
    ensures Coherent(Apply(c, w))
  {
    hide ViewOk, SlotOk, Out13;
    var c2 := Apply(c, w);
    if IsChannelReg(w.reg) && w.reg != 0xBD && w.reg >= 0xA0 {
      hide Bit;
      assert c2 == ChannelWrite(c, w.reg, w.val);
    } else {
      assert c2.mv == c.mv && c2.cv == c.cv;
    }
  }

  lemma CommitCoheres(m: Machine)
    requires WellFormed(m.chip) && QueueOk(m.queue) && Coherent(m.chip)
    ensures Coherent(Commit(m).chip)
  {
    hide WellFormed, Apply;
    FollowEvens(m.chip);
    WellSized(m.chip);
    if Takes(m) {
      ApplyCoheres(Follow(m.chip), m.queue[0]);
    }
  }

  lemma CommitCredit(m: Machine)
    requires WellFormed(m.chip) && QueueOk(m.queue) && CreditOk(m)
    ensures CreditOk(Commit(m))
  {
    hide Apply, Follow, IsReg;
  }

  // ---------------- one sample ----------------

  /** Whatever the key did, the stage agrees with it after one sample. */
  lemma StageFollowsKey(s: Slot, x: Around)
    requires ViewOk(x.view)
    ensures x.key <==> StepSlot(s, x).stage != Release
  {
    hide StepCode, RateOf, SlotIncrement;
  }

  lemma MixRange(c: Chip, rom: seq<int>)
    requires WellFormed(c) && RomOk(rom)
    ensures HeldOk(Rendered(c, rom))
  {
    hide EnvelopeAt, Rhythm, SlotsNext, HistoriesNext, CountersNext;
    hide ModulatorOut, CarrierOut, Operator, WellFormed, RomOk, Phase10;
    MixOut(c, rom, 6);
    MixOut(c, rom, 7);
    MixOut(c, rom, 8);
    hide CarMix;
    var s, t := SnareMix(c, rom), CymbalMix(c, rom);
    assert Out13(s) && Out13(t);
  }

  lemma MixOut(c: Chip, rom: seq<int>, n: int)
    requires WellFormed(c) && RomOk(rom) && 0 <= n < 9
    ensures Out13(CarMix(c, rom, n))
  {
  }

  lemma RenderKeeps(c: Chip, rom: seq<int>)
    requires WellFormed(c) && RomOk(rom) && Coherent(c)
    ensures WellFormed(Rendered(c, rom)) && Coherent(Rendered(c, rom)) && KeysAgree(Rendered(c, rom))
    ensures HeldOk(Rendered(c, rom))
    ensures Bit(c.test, 0x80) ==> Rendered(c, rom).cnt.vib == 0
  {
    RenderedWellFormed(c, rom);
    RenderedParts(c, rom);
    MixRange(c, rom);
    var r := Rendered(c, rom);
    hide Rendered, CountersNext, HistoriesNext;
    forall i | 0 <= i < 18
      ensures Key(r, i) <==> r.slots[i].stage != Release
    {
      SlotAfter(c, rom, i);
      StageFollowsKey(c.slots[i], AroundAt(c, i));
    }
  }

  lemma SlotAfter(c: Chip, rom: seq<int>, i: int)
    requires WellFormed(c) && RomOk(rom) && 0 <= i < 18
    ensures |Rendered(c, rom).slots| == 18 && Rendered(c, rom).slots[i] == SlotNext(c, i)
  {
  }

  lemma SampleRests(m: Machine, rom: seq<int>)
    requires AtRest(m) && RomOk(rom)
    ensures AtRest(Sample(m, rom).0)
  {
    hide WellFormed, Rendered, RomOk, IsReg, Follow, Apply, Coherent, KeysAgree, HeldOk, Accumulator;
    CommitCoheres(m);
    CommitCredit(m);
    RenderKeeps(Commit(m).chip, rom);
    RenderSame(Commit(m).chip, rom);
  }

  lemma RenderSame(c: Chip, rom: seq<int>)
    requires WellFormed(c) && RomOk(rom)
    ensures Rendered(c, rom).test == c.test && Rendered(c, rom).lag == c.lag
  {
  }

  // ---------------- runs ----------------

  datatype Event = Offer(w: Write) | Tick

  function Step(m: Machine, e: Event, rom: seq<int>): Machine
    requires AtRest(m) && RomOk(rom)
  {
    match e
    case Offer(w) => Push(m, w)
    case Tick => Sample(m, rom).0
  }

  lemma StepRests(m: Machine, e: Event, rom: seq<int>)
    requires AtRest(m) && RomOk(rom)
    ensures AtRest(Step(m, e, rom))
  {
    hide AtRest;
    match e
    case Offer(w) => PushRests(m, w);
    case Tick => SampleRests(m, rom);
  }

  /** The machine after a run of events. */
  function Run(m: Machine, es: seq<Event>, rom: seq<int>): (r: Machine)
    requires AtRest(m) && RomOk(rom)
    ensures AtRest(r)
    decreases |es|
  {
    if es == [] then m
    else
      StepRests(m, es[0], rom);
      Run(Step(m, es[0], rom), es[1..], rom)
  }

  lemma StepRuns(m: Machine, e: Event, rom: seq<int>)
    requires InRun(m) && RomOk(rom)
    ensures InRun(Step(m, e, rom))
  {
    StepRests(m, e, rom);
    if e.Tick? {
      CommitClocks(m);
      RenderClocks(Commit(m).chip, rom);
      hide AtRest, Clocked;
      ClocksKeep(m.chip.cnt, m.chip.test, Commit(m).chip.test);
    } else {
      hide AtRest, Clocked, IsReg;
    }
  }

  lemma CommitClocks(m: Machine)
    requires AtRest(m)
    ensures WellFormed(Commit(m).chip) && Commit(m).chip.cnt == m.chip.cnt
  {
    hide WellFormed, KeysAgree, Coherent, IsReg, HeldOk, WriteView, WriteRegisters;
  }

  lemma RenderClocks(c: Chip, rom: seq<int>)
    requires WellFormed(c) && RomOk(rom)
    ensures Rendered(c, rom).cnt == CountersNext(c.cnt, c.test) && Rendered(c, rom).test == c.test
  {
  }

  /** Every state of a run from reset is in the invariant. */
  lemma {:induction false} RunRuns(m: Machine, es: seq<Event>, rom: seq<int>)
    requires InRun(m) && RomOk(rom)
    ensures InRun(Run(m, es, rom))
    decreases |es|
  {
    hide AtRest, Clocked, Step;
    if es != [] {
      StepRuns(m, es[0], rom);
      RunRuns(Step(m, es[0], rom), es[1..], rom);
    }
  }

  /** The words the DAC is fed over a run. */
  function Words(m: Machine, es: seq<Event>, rom: seq<int>): seq<int>
    requires AtRest(m) && RomOk(rom)
    decreases |es|
  {
    if es == [] then []
    else
      StepRests(m, es[0], rom);
      (if es[0].Tick? then [Sample(m, rom).1] else []) + Words(Step(m, es[0], rom), es[1..], rom)
  }

  function Ticks(es: seq<Event>): (n: nat)
    ensures n <= |es|
  {
    if es == [] then 0 else (if es[0].Tick? then 1 else 0) + Ticks(es[1..])
  }

  /** The writes a run applies, in order. */
  function Applied(m: Machine, es: seq<Event>, rom: seq<int>): seq<Write>
    requires AtRest(m) && RomOk(rom)
    decreases |es|
  {
    if es == [] then []
    else
      StepRests(m, es[0], rom);
      Served(m, es[0]) + Applied(Step(m, es[0], rom), es[1..], rom)
  }

  /** The write this event applies, if it does. */
  function Served(m: Machine, e: Event): seq<Write>
    requires AtRest(m)
  {
    if e.Tick? && Takes(m) then [m.queue[0]] else []
  }

  /** The offered write the queue keeps, if it does. */
  function Kept(m: Machine, e: Event): seq<Write> {
    if e.Offer? && IsReg(e.w.reg) && |m.queue| < QUEUE_SIZE then [e.w] else []
  }

  /** The writes the queue keeps over a run, in order. */
  function KeptAll(m: Machine, es: seq<Event>, rom: seq<int>): seq<Write>
    requires AtRest(m) && RomOk(rom)
    decreases |es|
  {
    if es == [] then []
    else
      StepRests(m, es[0], rom);
      Kept(m, es[0]) + KeptAll(Step(m, es[0], rom), es[1..], rom)
  }

  /** Writes to registers that found the queue full. */
  function Lost(m: Machine, es: seq<Event>, rom: seq<int>): (n: nat)
    requires AtRest(m) && RomOk(rom)
    decreases |es|
  {
    if es == [] then 0
    else
      StepRests(m, es[0], rom);
      (if es[0].Offer? && IsReg(es[0].w.reg) && |m.queue| == QUEUE_SIZE then 1 else 0)
      + Lost(Step(m, es[0], rom), es[1..], rom)
  }

  lemma StepQueue(m: Machine, e: Event, rom: seq<int>)
    requires AtRest(m) && RomOk(rom)
    ensures m.queue + Kept(m, e) == Served(m, e) + Step(m, e, rom).queue
    ensures e.Tick? ==> Step(m, e, rom).credit ==
                          CreditNext(m.credit - 96 * |Served(m, e)|, |Step(m, e, rom).queue| > 0)
    ensures e.Offer? ==> Step(m, e, rom).credit == m.credit
  {
    hide WellFormed, IsReg, Coherent, KeysAgree, Rendered, Apply, Follow, Accumulator, RomOk;
  }

  /** No write is lost, repeated or reordered once the queue has kept it. */
  lemma {:induction false} QueueIsFifo(m: Machine, es: seq<Event>, rom: seq<int>)
    requires AtRest(m) && RomOk(rom)
    ensures m.queue + KeptAll(m, es, rom) == Applied(m, es, rom) + Run(m, es, rom).queue
    decreases |es|
  {
    if es != [] {
      var e, n := es[0], Step(m, es[0], rom);
      StepRests(m, e, rom);
      StepQueue(m, e, rom);
      QueueIsFifo(n, es[1..], rom);
      Regrouped(m.queue, Kept(m, e), Served(m, e), n.queue, KeptAll(n, es[1..], rom), Applied(n, es[1..], rom),
             Run(n, es[1..], rom).queue);
      hide AtRest, RomOk, Step, Kept, Served;
    }
  }

  lemma Regrouped(q: seq<Write>, k: seq<Write>, s: seq<Write>, q': seq<Write>, kept: seq<Write>, done: seq<Write>,
        end: seq<Write>)
    requires q + k == s + q' && q' + kept == done + end
    ensures q + (k + kept) == (s + done) + end
  {
    assert q + (k + kept) == (q + k) + kept;
    assert (s + q') + kept == s + (q' + kept);
    assert s + (done + end) == (s + done) + end;
  }

  /** Those that found it full are counted, up to the cap. */
  lemma {:induction false} DropsCount(m: Machine, es: seq<Event>, rom: seq<int>)
    requires AtRest(m) && RomOk(rom)
    ensures Run(m, es, rom).drops ==
            if m.drops + Lost(m, es, rom) > MAX_DROPS then MAX_DROPS else m.drops + Lost(m, es, rom)
    decreases |es|
  {
    if es != [] {
      StepRests(m, es[0], rom);
      StepDrops(m, es[0], rom);
      DropsCount(Step(m, es[0], rom), es[1..], rom);
    }
  }

  lemma StepDrops(m: Machine, e: Event, rom: seq<int>)
    requires AtRest(m) && RomOk(rom)
    ensures Step(m, e, rom).drops ==
            if e.Offer? && IsReg(e.w.reg) && |m.queue| == QUEUE_SIZE && m.drops < MAX_DROPS then m.drops + 1
              else m.drops
  {
    hide WellFormed, IsReg, Coherent, KeysAgree, Rendered, Apply, Follow, Accumulator, RomOk;
  }

  /** Section 7.8: n samples apply at most (credit + 72 (n - 1)) / 96 writes, whatever is offered. */
  lemma {:induction false} Paced(m: Machine, es: seq<Event>, rom: seq<int>)
    requires AtRest(m) && RomOk(rom) && Ticks(es) > 0
    ensures 96 * |Applied(m, es, rom)| <= m.credit + 72 * (Ticks(es) - 1)
    decreases |es|
  {
    StepRests(m, es[0], rom);
    StepQueue(m, es[0], rom);
    var n := Step(m, es[0], rom);
    if Ticks(es[1..]) > 0 {
      Paced(n, es[1..], rom);
      hide AtRest, Step, RomOk;
    } else {
      NoTicks(n, es[1..], rom);
    }
  }

  lemma {:induction false} NoTicks(m: Machine, es: seq<Event>, rom: seq<int>)
    requires AtRest(m) && RomOk(rom) && Ticks(es) == 0
    ensures Applied(m, es, rom) == []
    decreases |es|
  {
    if es != [] {
      StepRests(m, es[0], rom);
      NoTicks(Step(m, es[0], rom), es[1..], rom);
    }
  }

  // ---------------- draining ----------------

  function Sampled(m: Machine, rom: seq<int>): (r: Machine)
    requires AtRest(m) && RomOk(rom)
    ensures AtRest(r)
  {
    SampleRests(m, rom);
    Sample(m, rom).0
  }

  /** n samples and nothing offered. */
  function Idle(m: Machine, rom: seq<int>, n: nat): (r: Machine)
    requires AtRest(m) && RomOk(rom)
    ensures AtRest(r)
    decreases n
  {
    hide Sampled, AtRest, RomOk;
    if n == 0 then m
    else
      Idle(Sampled(m, rom), rom, n - 1)
  }

  lemma CommitMiss(m: Machine)
    requires AtRest(m) && |m.queue| > 0 && !Takes(m)
    ensures Commit(m).queue == m.queue && Commit(m).credit >= 144 && Commit(m).chip.lag == NO_LAG
  {
    hide WellFormed, IsReg, Coherent, KeysAgree, Apply;
  }

  /** A sample that does not take a waiting write leaves credit for one and nothing late. */
  lemma MissThenTakes(m: Machine, rom: seq<int>)
    requires AtRest(m) && RomOk(rom) && |m.queue| > 0 && !Takes(m)
    ensures Takes(Sampled(m, rom)) && Sampled(m, rom).queue == m.queue && Sampled(m, rom).credit >= 144
  {
    hide WellFormed, IsReg, Coherent, KeysAgree, Rendered, Commit, RomOk, Accumulator, HeldOk;
    SampleRests(m, rom);
    CommitMiss(m);
    RenderSame(Commit(m).chip, rom);
  }

  lemma SampleQueue(m: Machine, rom: seq<int>)
    requires AtRest(m) && RomOk(rom)
    ensures Sampled(m, rom).queue == if Takes(m) then m.queue[1..] else m.queue
  {
    SampleRests(m, rom);
    hide WellFormed, IsReg, Coherent, KeysAgree, Rendered, Apply, Accumulator, RomOk, Follow;
  }

  /** Late halves and all, a queue of writes that gets no more is empty within two samples a write. */
  lemma {:induction false} Drains(m: Machine, rom: seq<int>, n: nat)
    requires AtRest(m) && RomOk(rom) && n >= 2 * |m.queue|
    ensures Idle(m, rom, n).queue == []
    decreases n
  {
    hide Sampled, AtRest, RomOk, Takes;
    if n > 0 {
      SampleQueue(m, rom);
      var a := Sampled(m, rom);
      RestLag(m);
      if m.queue == [] || Takes(m) {
        if m.queue == [] { EmptyStays(m); }
        Drains(a, rom, n - 1);
      } else {
        MissThenTakes(m, rom);
        SampleQueue(a, rom);
        Drains(Sampled(a, rom), rom, n - 2);
      }
    }
  }

  lemma RestLag(m: Machine)
    requires AtRest(m)
    ensures |m.chip.lag| == 6
  {
  }

  lemma EmptyStays(m: Machine)
    requires |m.chip.lag| == 6 && m.queue == []
    ensures !Takes(m)
  {
  }

  // ---------------- many writes at once ----------------

  predicate AllRegs(ws: seq<Write>) { forall i :: 0 <= i < |ws| ==> IsReg(ws[i].reg) }

  function PushEach(m: Machine, ws: seq<Write>): Machine
    decreases |ws|
  {
    if ws == [] then m else PushEach(Push(m, ws[0]), ws[1..])
  }

  /** opl_push_n: what fits in order, and the rest counted in one sum. */
  function PushMany(m: Machine, ws: seq<Write>): Machine
    requires |m.queue| <= QUEUE_SIZE
  {
    var room := QUEUE_SIZE - |m.queue|;
    var kept := if |ws| <= room then |ws| else room;
    var lost := |ws| - kept;
    m.(queue := m.queue + ws[..kept],
       drops := if lost > MAX_DROPS - m.drops then MAX_DROPS else m.drops + lost)
  }

  /** It is the same writes pushed one by one. */
  lemma {:induction false} ManyIsEach(m: Machine, ws: seq<Write>)
    requires AllRegs(ws) && |m.queue| <= QUEUE_SIZE && 0 <= m.drops <= MAX_DROPS
    ensures PushEach(m, ws) == PushMany(m, ws)
    decreases |ws|
  {
    hide IsReg;
    if ws != [] {
      assert IsReg(ws[0].reg);
      ManyIsEach(Push(m, ws[0]), ws[1..]);
      if |m.queue| < QUEUE_SIZE {
        var n := if |ws| <= QUEUE_SIZE - |m.queue| then |ws| else QUEUE_SIZE - |m.queue|;
        assert ws[..n] == [ws[0]] + ws[1..][..n - 1];
      }
    } else {
      assert m.queue + [] == m.queue;
    }
  }
}
