# RP6502 emulator core: a verified model

The RP6502 firmware and emulator contain four self-contained bodies of logic whose correctness is not
visible from any one function: the OPL2 (YM3812) sound engine, the mirrors the 6502 side keeps of the
audio queues, the argv buffer, and pairs of writers and readers that live in different languages. This
project models them in Dafny in the form the sources have (mutable state is a class, a loop is a loop,
packed words are packed words) and proves what they are for.

**The OPL2 engine** (`OplSpec`, `OplCaches`, `OplSlotModel`, `OplRules`, `OplEngine`, `OplRuns`, `OplLaws`, `OplTone`,
`OplWrites`, `OplSave`). `OplSpec` states the chip as `src/core/aud/opl.md` describes it: registers and counters only, every
envelope, phase and output computed afresh on every sample. `OplEngine.Opl` is the engine of
`src/core/aud/opl.c` with its caches: seven precomputed phase increments a slot, four rate indices packed
in one word, the KSL/TL word, envelope records, mute flags, the muted shortcut, the 36-word step table, the
packed feedback history, the lagging modulator views. Its `Valid()` ties all of them to a specification
machine `m`, and every call is proved to take `m` to exactly what the specification says: `Sample` returns
the specification's DAC word, and `Push`, `Map`, `Save` and `Load` do to `m` what they promise. `OplRuns` then
proves the safety, order, pacing and drainage of every run. `OplLaws`, `OplTone` and `OplWrites` say what the
specification comes to without its names, in register bits and arithmetic: what one sample does to an
operator's level and phase, what it sounds like and how loud, what the DAC is fed, what each address sets
and where the clocks stand. `OplSave` proves that a save at any point of any run loads and goes on speaking the
same words, though nothing cached is stored.

**The mix** (`OplMirror`, `Pcm`, `Rsmp`, `AudSound`, `AudMirror`). The machine answers the 6502 at once: from a
lazily stepped queue of register numbers for the OPL2, and from a closed form for the PCM player. A
renderer drains stamped events later. `AudMirror.Aud` holds both sides and the one event ring between
them. It proves that every answer is that of engines driven directly in the machine's time, that every
sample the renderer makes is the sample those engines made then, and that the renderer loses no write and
no byte. `Pcm` proves that the doubled history ring and the half coefficient table give the words of the
plain resampler of `Rsmp`.

**The argv buffer** (`Argv`). An offset table and packed strings in 512 bytes, edited in place. The bytes are
proved to be the one encoding of a list of strings through append, replace, clear, push and pull, and pull
to accept exactly the well-formed layouts.

**Writers and readers.** `TelnetStream`, `TelnetNegotiation` and `TelnetConsole`: the streaming scanner and the
option negotiation (section 7 of RFC 1143; the "TELNET COMMAND STRUCTURE" section of RFC 854). `Quoting`: the
argument quoter against the monitor's string parser. `RomImage`, `RomLoader`, `RomRoundTrip`, `RomReader` and
`RomAsset`: the ROM packer against the C loader, the packer's own reader and the asset drive.

Eight behaviours of the code that its comments do not mention came out of the proofs.

1. `opl_park` empties the queue and leaves the credit. An engine parked after a sample that could not take
   a waiting write has a credit above 96, and then the chunk `opl_sst_save` writes is one `opl_sst_load`
   refuses. `OplSave.ParkedSave` gives the exact condition, and `OplSave.ParkedReached` a run that comes to it.
2. `opl_sst_load` accepts images outside what any run keeps. `OplSave.AcceptedMachine` says exactly when an
   accepted image is a machine at rest, and when it is in the run invariant. `OplSave.UnsavedReset` changes
   one byte of the image of an engine just mapped in two ways, each accepted and saved by no run.
3. The pump takes the first entry of an image's directory for the program whatever its name
   (`RomRoundTrip.EntryOpens`), so an image that packs no memory but has assets is loaded from its first
   asset. `RomRoundTrip.LoadsExactly` gives the exact condition on the memory and the assets under which a
   packed image loads as it should, and `RomRoundTrip.AssetLoads` the images that do not.
4. The asset scan's position is a 32-bit sum. An entry whose length is 2^32 less its own header sends the
   scan back to itself, on an image that loads: `RomAsset.LoadedLoops`. `RomAsset.ScanEnds` says when a scan
   ends, `RomAsset.ForwardEnds` that it does when no length runs past 2^32.
5. The seek before a window's read is not checked, so past 2^31 the read is from wherever the shared
   descriptor was left. `RomAsset.ReadsElsewhere` runs into it on an image that loads, and
   `RomAsset.SliceExactly` says exactly when the bytes read are the window's.
6. After a write of NTS the byte that stands for "no rate" can be 65 where a rebuild gives 64
   (`OplSlotModel.NoRateFlips`). Both index words that are always zero, so the rate caches are equal up to that
   (`OplCaches.NtsFlipKeepsRates`).
7. The packer's reader strips a name and takes an entry left without one for the memory's, so an asset
   can come back under another name (`RomReader.NameChanged`) or as memory (`RomReader.NameLost`).
   `RomReader.RomBack` gives the exact condition under which an image is read back as what was packed.
8. `pcm_takes` counts takes modulo 2^32, so a player left alone for longer than that many frames can be taken for
   one with bytes it has played: `AudMirror.Aud.PmStep` and `PcmLevel` say exactly when, and `Pcm.TakesWrap`
   gives a case two days on. `aud_pcm_close` counts no underrun since the last step (`PcmClose`); the device's
   close, which waits for the buffer, loses none (`StdClose`).

Words are unbounded integers with their wrap-around written out, except that the packed rate word and the
noise register are bit-vectors. `dfyconfig.toml` lists the whole project.

## Main results

| result | members |
|---|---|
| The cached OPL2 engine is the chip of `opl.md`, sample by sample | `OplEngine.Opl.Sample`, `Commit`, `Apply`, `Render` |
| And that chip is what its registers mean: envelope, pitch, loudness, waveforms, mix, DAC and clocks in plain arithmetic | `OplLaws.EnvelopeLaw`, `PitchLaw`, `OplTone.WordLaw`, `WaveLaw`, `LoudnessLaw`, `OplWrites.OperatorWriteLaw`, `ChannelWriteLaw`, `ClockLaw` |
| Every run keeps the invariant a savestate checks, and the counters' own | `OplRuns.SampleRests`, `OplRuns.RunRuns` |
| Writes are applied in order, at the pace promised, and none waits for ever | `OplRuns.QueueIsFifo`, `Paced`, `Drains` |
| A save at any point of any run loads and speaks the same words ever after | `OplSave.SavedRunGoesOn`, `OplEngine.Opl.Save`, `Load` |
| What the machine answers, and every sample rendered, is the directly driven engines' | `AudMirror.Aud.XramWrite`, `PcmWrite`, `PcmLevel`, `PcmUnderruns`, `StdClose`, `Next`, `Take` |
| The closed form of the PCM player is its sample-by-sample count | `Pcm.ClosedForm`, `Pcm.PcmPlayer.Sample` |
| Sound written to the player is the sound heard, each channel on its side | `Pcm.FramesPlayed`, `ConstantHeard`, `AudSound.WrittenHeard` |
| The resampler makes the outputs its step asks for | `Rsmp.OutputCount`, `Rsmp.ConstantUnchanged` |
| The argv buffer is a list of strings, and pull takes exactly the well-formed ones | `Argv.ArgBuf.Append`, `Replace`, `PullXstack`, `Argv.PushPull` |
| A Telnet stream means the same however it is cut | `TelnetStream.AnyCut`, `WireScans`, `TelnetConsole.FeedIsWhole` |
| Two negotiators settle and agree on every option, from any run, and on exactly what was offered and accepted | `TelnetNegotiation.RunAgrees`, `RunEnables` |
| A Telnet user is given exactly the data sent | `TelnetConsole.Delivered` |
| A line of bare and quoted arguments is read back exactly when each fits | `Quoting.LineBack`, `QuotedLineBack` |
| A packed image loads as its memory, exactly when it should, and so does a classic one | `RomRoundTrip.LoadsExactly`, `PackAndLoad`, `ClassicLoads` |
| A packed image is read back whole exactly when its names are plain and no two alike | `RomReader.RomBack`, `Reread`, `AddRomFile` |
| An asset is found by name, and in any state of the drive a window reads its bytes and no others | `RomAsset.PackedAsset`, `ScanEnds`, `RomAsset.AssetDrive.WindowReads`, `Read`, `RomAsset.ReadsJoin` |

## Model

| member | source | states |
|---|---|---|
| OplEngine.Opl.Sample | src/core/aud/opl.c:817-922 | one sample of the cached engine takes the specified machine to the specified next state and returns the specified DAC word, and all caches stay right |
| OplEngine.Opl.Render | src/core/aud/opl.c:817-922 | after the writes are in, the sum of the held and new slot outputs through the DAC is the specification's word, and the chip is the specification's rendered chip |
| OplEngine.Opl.SumSlots | src/core/aud/opl.c:863-882 | the accumulator is slots 15-17 of the sample before plus slots 0-14 of this one, rhythm weights included |
| OplEngine.Opl.Commit | src/core/aud/opl.c:786-813 | late halves, then at most one write, then the credit: exactly the specification's commit, with every cache agreeing with the new registers |
| OplEngine.Opl.Push | src/core/aud/opl.h:66-73 | a register write is queued if there is room, counted as a drop otherwise, ignored if not a register |
| OplEngine.Opl.Apply | src/core/aud/opl.c:719-780 | each register write leaves every cached field what the new registers determine and changes no register it does not own |
| OplEngine.Opl.Kernels | src/core/aud/opl.c:863-882 | all 18 slots and 9 histories pass one specified sample and their mix is the accumulator |
| OplEngine.Opl.Chan | src/core/aud/opl.c:389-414 | one channel's two operators, history, feedback and mix are the specification's, muted shortcut or not |
| OplEngine.Opl.PairMuted | src/core/aud/opl.c:400-406 | when both records are the muted fixed point the shortcut leaves the slots, history and outputs of the full kernel |
| OplEngine.Opl.Pair | src/core/aud/opl.c:389-414 | the full kernel of a channel computes the specified modulator and carrier outputs and mute flags |
| OplEngine.Opl.Run | src/core/aud/opl.c:335-373 | one slot's record step, phase and attenuation are those of running the whole envelope rule and phase rule |
| OplEngine.Opl.Eg | src/core/aud/opl.c:335-373 | whatever the record, the slot steps as the whole rule would and is left with a record that fits; the level term comes from before the step |
| OplEngine.Opl.EgForced | src/core/aud/opl.c:253-302 | a forced slot runs the whole rule, key edges and the vibrato fix included |
| OplEngine.Opl.EgKeyOn | src/core/aud/opl.c:253-302 | key-on: attack, the level zeroed at once for the top rates, the phase restarted |
| OplEngine.Opl.EgKeyOff | src/core/aud/opl.c:253-302 | key-off: release, one more linear step where the stage was stepping, mute at the bottom |
| OplEngine.Opl.EgEvent | src/core/aud/opl.c:306-331 | a slot outside its record, forced or leaving, steps as the whole rule |
| OplEngine.Opl.EgLeave | src/core/aud/opl.c:306-331 | leaving a record is exactly the stage change the rule makes at that level |
| OplEngine.Opl.Rhythmic | src/core/aud/opl.c:417-477 | the rhythm section's slots, histories, latches, held outputs and sum are the specification's |
| OplEngine.Opl.Drums | src/core/aud/opl.c:417-477 | hi-hat and tom add doubled now, snare and cymbal are held, and the cymbal bits are relatched |
| OplEngine.Opl.Hihat | src/core/aud/opl.c:417-477 | the hi-hat's value is that of its mixed phase from slot 13, the latched cymbal bits and the noise |
| OplEngine.Opl.Snare | src/core/aud/opl.c:417-477 | the snare's value is that of its phase from slot 13's phase and the noise |
| OplEngine.Opl.Tom | src/core/aud/opl.c:417-477 | the tom's value is its own phase's |
| OplEngine.Opl.Cymbal | src/core/aud/opl.c:417-477 | the cymbal uses its own phase's bits of this sample and latches them |
| OplEngine.Opl.BassDrum | src/core/aud/opl.c:417-477 | channel 6 in rhythm is held doubled, and only its carrier is heard |
| OplEngine.Opl.Melodic | src/core/aud/opl.c:863-882 | channels 0-5 each pass one sample and their mixes add up |
| OplEngine.Opl.High | src/core/aud/opl.c:863-882 | channels 6-8 are melodic or rhythm by the rhythm bit, and the latches follow |
| OplEngine.Opl.StepTable | src/core/aud/opl.c:836-861 | the incrementally edited table holds, for each rate index, the step the rate takes this sample, and twice it for attack |
| OplEngine.Opl.TremoloStep | src/core/aud/opl.c:822-834 | the tremolo counter, its direction and its depth this sample |
| OplEngine.Opl.TimerStep | src/core/aud/opl.c:883-899 | the envelope timer, its carry and its shift |
| OplEngine.Opl.LowFrequencyStep | src/core/aud/opl.c:900-914 | vibrato position, low-frequency counter and 18 noise steps at once, test bit 7 included |
| OplEngine.Opl.CountersStep | src/core/aud/opl.c:883-914 | all end-of-sample counters are the specification's |
| OplEngine.Opl.MvFollow | src/core/aud/opl.c:613-626 | the modulator side takes the carrier's view, and every cache of its slot and channel with it |
| OplEngine.Opl.FbFollow | src/core/aud/opl.c:786-800 | the late feedback of channels 3-5 follows and no slot changes |
| OplEngine.Opl.FollowLate | src/core/aud/opl.c:786-800 | all lagging halves follow, the lag clears, and without a late half of channels 0-2 no slot changes |
| OplEngine.Opl.ChanAb | src/core/aud/opl.c:629-655 | A0 and B0 writes: carrier now, modulator now or one sample late by channel and alias |
| OplEngine.Opl.ChanC | src/core/aud/opl.c:658-674 | C0 writes: connection and feedback now, late or split by channel and alias |
| OplEngine.Opl.BdWrite | src/core/aud/opl.c:676-687 | depths, rhythm, drum keys, and the cymbal latch from slot 0 when rhythm turns on |
| OplEngine.Opl.NtsWrite | src/core/aud/opl.c:689-704 | the in-place bit flip of the packed rates leaves what packing afresh would |
| OplEngine.Opl.TestWrite | src/core/aud/opl.c:707-716 | a write that sets test bit 7 leaves slot 0 one sample of the old vibrato and the others none |
| OplEngine.Opl.SlotWrite | src/core/aud/opl.c:719-780 | an operator register write changes that operator alone, its caches with it |
| OplEngine.Opl.SlotViewed | src/core/aud/opl.c:561-573 | recomputing only what a view change touches leaves every cache right |
| OplEngine.Opl.Rebuild | src/core/aud/opl.c:929-953 | from registers and counters alone every cache is rebuilt right, and where keys and stages agree the engine stands |
| OplEngine.Opl.Reset | src/core/aud/opl.c:955-969 | the reset state is section 8.3's |
| OplEngine.Opl.constructor | src/core/aud/opl.c:955-996 | a new engine is the reset machine, parked |
| OplEngine.Opl.Map | src/core/aud/opl.c:998-1002 | mapping resets |
| OplEngine.Opl.Park | src/core/aud/opl.c:992-996 | parking empties the queue and leaves all else, credit included; the engine can be saved but is in no run |
| OplEngine.Opl.Save | src/core/aud/opl.c:1036-1084 | the 860 bytes written hold each register, counter, history and queued write at its place |
| OplEngine.Opl.Load | src/core/aud/opl.c:1086-1165 | a load succeeds exactly on the accepted images and becomes the machine they hold, with every cache what its registers give and every record fit for its slot; a refused one leaves a reset engine |
| OplSlotModel.RecordStep | src/core/aud/opl.c:335-373 | inside its record a slot's table step is the whole envelope rule, keeps the level in 0-0x1FF, and keeps the record fitting |
| OplSlotModel.RecordLeave | src/core/aud/opl.c:335-373 | outside its record a slot is at a transition point |
| OplSlotModel.LeaveRule | src/core/aud/opl.c:306-331 | at a transition point the rule changes the stage or mutes, and nothing else |
| OplSlotModel.IndexRuleIsEnvelope | src/core/aud/opl.c:205-302 | the rule on packed rate indices is the rule on registers |
| OplSlotModel.EgRec | src/core/aud/opl.c:220-250 | the record chosen for any level and stage fits it, is muted exactly at the fixed point, and excludes transition points |
| OplSlotModel.SetKey | src/core/aud/opl.c:481-494 | a key change forces the slot, and an unchanged key changes nothing |
| OplSlotModel.SlotPg | src/core/aud/opl.c:505-514 | the seven cached increments fit the view and register 20 |
| OplSlotModel.SlotKsl | src/core/aud/opl.c:516-519 | the attenuation word is KSL and TL of the view, tremolo bit kept |
| OplSlotModel.PackRates | src/core/aud/opl.c:522-546 | the byte-parallel packing and clamp give the four scaled rates, and the flip flag says whether NTS matters |
| OplSlotModel.SlotEg | src/core/aud/opl.c:522-546 | new rates leave the record right without running the envelope |
| OplSlotModel.Reviewed | src/core/aud/opl.c:561-573 | a slot seen through a new view is cached for it whatever part changed |
| OplSlotModel.Write20 | src/core/aud/opl.c:719-780 | a write of 20-35: register and every cache it feeds |
| OplSlotModel.Write40 | src/core/aud/opl.c:719-780 | a write of 40-55: register and attenuation word |
| OplSlotModel.Write60 | src/core/aud/opl.c:719-780 | a write of 60-75: register and packed rates |
| OplSlotModel.Write80 | src/core/aud/opl.c:719-780 | a write of 80-95: register, packed rates, sustain band and decay record |
| OplSlotModel.WriteE0 | src/core/aud/opl.c:719-780 | a write of E0-F5: waveform select and its mask |
| OplSlotModel.Rewritten | src/core/aud/opl.c:719-780 | any operator write, the waveform gated by test bit 5 |
| OplSlotModel.Rebuilt | src/core/aud/opl.c:938-952 | a slot rebuilt from its registers has every cache right and a record that fits, and is settled when key and stage agree |
| OplSlotModel.NtsFlipIs | src/core/aud/opl.c:689-704 | flipping the packed bytes and the record's index in place caches the slot for the other NTS |
| OplSlotModel.NoRateFlips | src/core/aud/opl.c:689-704 | an operator whose flipped byte of no rate is 65 where packing afresh gives 64 |
| OplSlotModel.OpValueIsOperator | src/core/aud/opl.c:375-385 | the masked table look-up is the operator of section 4.2 for all four waveforms |
| OplSlotModel.SilentOperator | src/core/aud/opl.c:400-406 | at full attenuation an operator gives 0, or -1 in the sine's negative half |
| OplCaches.PackedBytes | src/core/aud/opl.c:522-546 | each byte of the packed word is its own rate, scaled and clamped, with no carry between bytes |
| OplCaches.PackedWordIsIndices | src/core/aud/opl.c:522-546 | the packed word's bytes are the rate indices of section 3.2 |
| OplCaches.NtsFlipKeepsRates | src/core/aud/opl.c:689-704 | the in-place flip keeps the rates cached, "no rate" 64 or 65 alike |
| OplCaches.IndexIsRate | src/core/aud/opl.c:836-861 | a rate index steps as its rate does, and the instant attack rates are 60-63 |
| OplCaches.TableFromWords | src/core/aud/opl.c:836-861 | the table's words give each index its byte, linear and attack |
| OplCaches.SetLowWords | src/core/aud/opl.c:836-861 | on a timer sample the three words set are exactly those whose rates step |
| OplCaches.ClearLowWords | src/core/aud/opl.c:836-861 | clearing the words last set clears all below 48 |
| OplCaches.CachedIncrement | src/core/aud/opl.c:505-514 | the cached increment of a vibrato position is the phase increment of section 2, shifted |
| OplCaches.FeedbackTopIs | src/core/aud/opl.c:389-414 | the shifted sum of two packed outputs is the feedback term of section 4.3 modulo the phase |
| OplCaches.HistoryRoundTrip | src/core/aud/opl.c:389-414 | two 13-bit outputs packed in one word come back |
| OplCaches.EighteenSteps | src/core/aud/opl.c:909-914 | two nine-bit jumps are eighteen steps of the noise register, which never becomes zero |
| OplCaches.EighteenOnes | src/core/aud/opl.c:902-908 | with test bit 7 the jump is eighteen steps that shift in ones |
| OplCaches.EnvelopeShift | src/core/aud/opl.c:890-896 | the count of trailing zeros of the low 13 bits is the timer's |
| OplCaches.DacIsWord | src/core/aud/opl.c:916-921 | the bit trick is the exponent and mantissa of section 6.2 |
| OplRules.MutedSlot | src/core/aud/opl.c:400-406 | a muted slot only moves its phase, and stays muted |
| OplRules.PhaseRule | src/core/aud/opl.c:335-373 | restart, the vibrato fix and the plain increment give the specified phase |
| OplRules.ViewA | src/core/aud/opl.c:584-594 | A0 changes the low F-number, and the flags it returns tell what changed |
| OplRules.ViewB | src/core/aud/opl.c:597-610 | B0 changes block, key and high F-number, and the flags it returns tell what changed |
| OplRules.RegBits | src/core/aud/opl.c:165-170 | the 32-byte bitmap is exactly the list of registers of section 7.1 |
| OplRules.OffsetTable | src/core/aud/opl.c:174-177 | the offset table is the slot numbering |
| OplRuns.ResetRests | src/core/aud/opl.c:955-969 | the reset state is one a savestate check accepts |
| OplRuns.PushRests | src/core/aud/opl.h:66-73 | a push keeps the invariant |
| OplRuns.SampleRests | src/core/aud/opl.c:786-922 | a sample keeps the invariant: noise not zero, credit a multiple of 24 from 72 to its cap, held outputs in range, views equal but for lag, keys agreeing with stages |
| OplRuns.Run | src/core/aud/opl.c:1086-1156 | every state reached from reset by pushes and samples satisfies the invariant |
| OplRuns.ClocksKeep | src/core/aud/opl.c:883-914 | a sample keeps what the counters know of each other: what the timer was last read as, the tremolo clock, and test bit 7's hold |
| OplRuns.RunRuns | src/core/aud/opl.c:786-922 | so does every run |
| OplRuns.FollowEvens | src/core/aud/opl.c:786-800 | after the late halves follow, both views of every channel are the same |
| OplRuns.ApplyCoheres | src/core/aud/opl.c:629-674 | after any one write the views differ only where the lag says |
| OplRuns.StageFollowsKey | src/core/aud/opl.c:253-302 | after a sample a slot is released exactly when its key is up |
| OplRuns.RenderKeeps | src/core/aud/opl.c:817-922 | a rendered chip is well formed with held outputs in range |
| OplRuns.QueueIsFifo | src/core/aud/opl.c:786-813 | over any run the writes applied and those still queued are the writes queued at the start and those kept, in order |
| OplRuns.DropsCount | src/core/aud/opl.h:66-73 | the drop counter is the number of writes lost, saturating |
| OplRuns.Paced | src/core/aud/opl.h:13-21 | n samples apply k writes only if 96k is at most the starting credit plus 72(n-1) |
| OplRuns.MissThenTakes | src/core/aud/opl.h:13-21 | a sample that could not take a waiting write is followed by one that does |
| OplRuns.Drains | src/core/aud/opl.h:13-21 | a queue of L writes receiving no more is empty within 2L samples, late holds included |
| OplRuns.CommitIdle | src/core/aud/mix.c:90-113 | an idle machine's commit changes nothing |
| OplRuns.ManyIsEach | src/core/aud/opl.h:78-83 | pushing many at once keeps, orders and counts as pushing each |
| OplLaws.EnvelopeLaw | src/core/aud/opl.md:195-285 | through `Sample`, in register bits: keying a released operator puts it in attack, at level 0 at once when the high nibble of 60 and the note's scale come to 15 and at its own level otherwise; attack takes off the level's eighth, quarter or half and one at the rate of that nibble, decay adds at the rate of the low nibble up to SL, sustain holds with EGT and else goes on at RR; a nibble of 0 never moves; from 504 on a level is 511 |
| OplLaws.GainOverEight | src/core/aud/opl.md:219-241 | a rate moves 4 + its low bits times in eight periods of its high bits below 48, and as much in eight samples from 48 on, doubled with each step of the high bits |
| OplLaws.TickOfRun | src/core/aud/opl.md:129-144 | in every run the envelopes go by the timer, or by the tick before on the one sample after it wraps |
| OplLaws.PitchLaw | src/core/aud/opl.md:159-188 | through `Sample`, one sample turns an operator by its multiple of F times two to the block, halved and floored: half for MULT 0, MULT itself up to 10, then 10, 12, 12, 15, 15; with VIB the F-number is bent by none, half or all of its top bits over eight positions; keying starts the phase over |
| OplTone.LoudnessLaw | src/core/aud/opl.md:287-298 | an operator is heard at its level plus 4 TL, its key scaling and with AM the tremolo, 511 at most |
| OplTone.KslTable | src/core/aud/opl.md:287-298 | the key scaling table is 32 and eight times the base-2 logarithm of the F-number's top four bits, rounded up |
| OplTone.QuarterLaw | src/core/aud/opl.md:327-346 | a rising quarter is the exponential of log-sine and attenuation, halved with every 256 |
| OplTone.WaveLaw | src/core/aud/opl.md:327-346 | the four waveforms from that quarter: mirrored, complemented, cut or repeated |
| OplTone.PeriodLaw | src/core/aud/opl.md:327-346 | the operator comes round every 1024 |
| OplTone.FeedbackLaw | src/core/aud/opl.md:348-365 | feedback is the sum of the last two outputs over two to 9 - FB, and none for FB 0 |
| OplTone.ModulatorLaw | src/core/aud/opl.md:348-365 | a channel's first operator at its phase's top ten bits and that feedback |
| OplTone.CarrierLaw | src/core/aud/opl.md:348-365 | its second at its own phase and, unless CON, the first's output of the same sample |
| OplTone.HistoryLaw | src/core/aud/opl.md:348-365 | the last two outputs shift by one, but for channels 7 and 8 in rhythm |
| OplTone.MuteLaw | src/core/aud/opl.md:243-285 | an operator is left out exactly when it is not attacking, at 504 or more and not just being keyed |
| OplTone.WordLaw | src/core/aud/opl.md:416-450 | the word `Sample` gives is the sum of the nine channels, or of six and the drums, held to sixteen bits and floored to the fewest low bits that leave ten |
| OplTone.MelodyLaw | src/core/aud/opl.md:416-433 | without rhythm nine channels add up, the carriers of the last three a sample late |
| OplTone.DrumsLaw | src/core/aud/opl.md:395-433 | with rhythm the drums come in doubled, hi-hat and tom at once, bass drum, snare and cymbal a sample late, the bass drum's modulator never |
| OplTone.DrumPhases | src/core/aud/opl.md:382-393 | the phases of hi-hat, snare and cymbal by the bits of two phases and the noise |
| OplTone.LatchLaw | src/core/aud/opl.md:382-393 | with rhythm the two cymbal bits are taken from its phase of this sample, and without it they stay |
| OplWrites.SeenLaw | src/core/aud/opl.md:20-41 | operator i is of channel 3(i/6) + i%3, a modulator when i%6 is below 3 |
| OplWrites.KeyLaw | src/core/aud/opl.md:371-380 | an operator is keyed by its channel's KON or, with rhythm, its drum's bit |
| OplWrites.AddressLaw | src/core/aud/opl.md:456-478 | the addresses the engine acts on, as arithmetic, and no other |
| OplWrites.OperatorWriteLaw | src/core/aud/opl.md:456-478 | a write to operator i's address i + 2(i/6) of a bank sets that register of that operator and nothing else, the waveform with test bit 5 |
| OplWrites.ChannelWriteLaw | src/core/aud/opl.md:556-589 | what A0, B0 and C0 hold, and which side of the channel they reach at once |
| OplWrites.AliasLaw | src/core/aud/opl.md:556-589 | what the other addresses of channels 0 to 2 do |
| OplWrites.GlobalWriteLaw | src/core/aud/opl.md:403-412 | registers 01, 08 and BD, and the cymbal bits taken when rhythm turns on |
| OplWrites.PushLaw | src/core/aud/opl.h:66-73 | 256 writes wait, the rest are counted up to 2^31 - 1, and no other address does anything |
| OplWrites.CommitLaw | src/core/aud/opl.md:600-620 | a sample takes the oldest write when none to channels 0 to 2 is still on its way and the credit is 96 or more, at a cost of 96, and earns 72 up to 192 while a write waits and 96 otherwise |
| OplWrites.FollowLaw | src/core/aud/opl.md:556-589 | what is late arrives: all of channels 0 to 2, the feedback of 3 to 5 |
| OplWrites.CountersLaw | src/core/aud/opl.md:97-144 | one sample of every counter, test bits 3 and 7 and the timer's wrap included |
| OplWrites.ClockLaw | src/core/aud/opl.md:97-144 | n samples after a reset the low-frequency counter is n, the vibrato n/1024, the tremolo a triangle up to 105 stepping every 64 samples, and the envelope timer n/2 |
| OplWrites.ResetClock | src/core/aud/opl.md:97-144 | a machine left alone after a reset is at that clock |
| OplWrites.NoiseLaw | src/core/aud/opl.md:146-155 | the noise register shifts in the sum of bits 22 and 8, or a one when it is empty |
| OplSave.ImageLoads | src/core/aud/opl.c:1086-1165 | the image of any machine at rest, mapped or parked idle, is accepted and holds that machine |
| OplSave.SavedRunGoesOn | src/core/aud/opl.c:1036-1165 | a save after any run is accepted, and in every later run of pushes and samples the loaded machine's words and states are the original's |
| OplSave.AcceptedMachine | src/core/aud/opl.c:1086-1165 | an accepted image is a machine at rest exactly when its keys agree with its stages and test bit 7 has no vibrato position |
| OplSave.UnsavedStage | src/core/aud/opl.c:1086-1165 | any saved image with a released, unkeyed slot's stage byte set to attack is accepted and saved by no run |
| OplSave.UnsavedTimer | src/core/aud/opl.c:1086-1165 | so is one whose timer bits were changed to others, and the engine goes on from it |
| OplSave.UnsavedReset | src/core/aud/opl.c:1086-1165 | both, at the image of an engine just mapped |
| OplSave.ResetIsImage | src/core/aud/opl.c:1036-1084 | that image, byte by byte |
| OplSave.ParkedSave | src/core/aud/opl.c:992-996 | a parked engine's image is accepted exactly when its credit is at most 96 |
| OplSave.ParkedSaveRefused | src/core/aud/opl.c:992-996 | parking after a sample that could not take a waiting write makes the save unloadable |
| OplSave.ParkedReached | src/core/aud/opl.c:992-996 | two writes offered to a new engine, two samples and a park come to such a save |
| OplSave.SlotLayout | src/core/aud/opl.c:1036-1051 | each operator is twelve bytes: its phase thirteen bits up, most significant byte first, its level, its stage from 0 to 3 and its five registers |
| OplSave.ChanLayout | src/core/aud/opl.c:1052-1057 | each channel is ten bytes: the later output and the one before in sixteen bits, then the three registers as the carrier and as the modulator sees them |
| OplSave.RestLayout | src/core/aud/opl.c:1058-1084 | each global register and counter at its byte, and the queue: its length, value before register for each waiting write, zeros up to 256 entries, the credit and the drops |
| OplSave.AcceptedMeans | src/core/aud/opl.c:1086-1165 | what a load accepts, byte by byte |
| OplMirror.LateIsLag | src/core/aud/opl.h:59-63 | the register test for late writes is exactly which writes set a late half |
| OplMirror.TickIsSample | src/core/aud/mix.c:90-113 | one step of the mirror is one sample of the engine, seen through its queue, credit and late flag |
| OplMirror.TicksAreSamples | src/core/aud/mix.c:90-113 | so are n steps |
| OplMirror.IdleStays | src/core/aud/mix.c:90-113 | the idle skip loses nothing |
| AudSound.FutureAppend | src/core/aud/mix.c:395-410 | a change stamped now is made after all earlier ones at its sample, and alters no sample before it |
| AudSound.FutureExtend | src/core/aud/mix.c:395-410 | one more sample of the renderer is one more of its future |
| AudSound.TickedAlike | src/core/aud/mix.c:360-393 | engines that differ in what they have counted alone speak the same |
| AudSound.AheadParts | src/core/aud/mix.c:360-393 | part by part n samples of the mix are n of each engine, an unmapped OPL2 standing still |
| AudSound.MeetsChange | src/core/aud/mix.c:456-461 | a change made to the directly driven engines and sent keeps the renderer on its way to them, losing nothing of it |
| AudSound.MeetsSample | src/core/aud/mix.c:405-410 | with nothing due the renderer's next sample is the one the directly driven engines made then |
| AudSound.ChangedMeans | src/core/aud/mix.c:303-347 | what each change does to the engines, and to nothing else: a push, a reset, a new player, bytes as far as 4096 have room, none, no player |
| AudSound.VoiceMeans | src/core/aud/mix.c:377-391 | silence with neither engine, the OPL2's word on both sides alone, and with the player each of its channels on its own side plus the word, held to sixteen bits |
| AudSound.WrittenHeard | src/core/aud/mix.c:377-391 | 24 frames or more of one sound written to the player and no OPL2: that sound is heard, left and right |
| AudMirror.StampOrder | src/core/aud/mix.c:395-403 | within half the stamp range the signed difference orders wrapped stamps as the samples they stand for |
| AudMirror.DecodesPut | src/core/aud/mix.c:303-347 | a register write packed in an event is taken as that write |
| AudMirror.DecodesOpen | src/core/aud/mix.c:513-529 | a format packed in an event is taken as that format |
| AudMirror.DecodesData | src/core/aud/mix.c:537-554 | one to three bytes packed in an event are taken as those bytes |
| AudMirror.StruckMeans | src/core/aud/mix.c:468-490 | a write reaches the OPL2 exactly when it lands in the 256 bytes from where it is mapped, on a register; at $FFFF it is mapped nowhere |
| AudMirror.FilledMeans | src/core/aud/mix.c:537-554 | a write fills the player's 4096 bytes or is taken whole |
| AudMirror.Aud.constructor | src/core/aud/mix.c:250-269 | both sides start parked and closed at the same sample |
| AudMirror.Aud.OqStep | src/core/aud/mix.c:90-113 | the queue's count, stepped to now, is the directly driven engine's queue, credit and hold |
| AudMirror.Aud.StepRing | src/core/aud/mix.c:90-113 | the loop with its idle skip is that many single steps |
| AudMirror.Aud.PcmTakes | src/core/aud/pcm.c:88-95 | in 64 bits the count is that of n single takes modulo 2^32, and the phase theirs |
| AudMirror.Aud.PmStep | src/core/aud/mix.c:136-149 | the count stepped to now in one go is the directly driven player's phase, level and underruns when fewer than 2^32 frames were due or their number modulo 2^32 is still that of the buffered ones or more; otherwise it has bytes the player has not |
| AudMirror.Aud.Apply | src/core/aud/mix.c:303-347 | an event is made the change it stands for, and an opened player is due a sample at its stamp |
| AudMirror.Aud.Due | src/core/aud/mix.c:395-403 | takes exactly the events whose sample has come, in order |
| AudMirror.Aud.PlayDue | src/core/aud/mix.c:382-388 | the catch-up loop plays exactly one sample |
| AudMirror.Aud.Mix | src/core/aud/mix.c:377-391 | the mapped OPL2 and the open player, summed and clamped, each one sample on |
| AudMirror.Aud.Next | src/core/aud/mix.c:405-410 | the sample made is the next one the directly driven engines made |
| AudMirror.Aud.Take | src/core/aud/mix.c:741-757 | caught up, the renderer has made all their samples and is those engines, counts aside |
| AudMirror.Aud.Overflow | src/core/aud/mix.c:447-454 | a full ring is run down by rendering ahead, never past the machine |
| AudMirror.Aud.PushAt | src/core/aud/mix.c:456-461 | an event goes at the ring's end with the machine's sample, its change made to the directly driven engines |
| AudMirror.Aud.XramWrite | src/core/aud/mix.c:468-490 | a write on a register of the mapped block is kept or dropped at once as the directly driven queue would; any other does nothing |
| AudMirror.Aud.Keep | src/core/aud/mix.c:479-489 | a write there is room for is in the mirror's queue and on its way |
| AudMirror.Aud.Drop | src/core/aud/mix.c:479-489 | one there is no room for is counted, and the renderer never hears of it |
| AudMirror.Aud.OplMap | src/core/aud/mix.c:505-511 | mapping or parking resets the engine and its count, and sends the word |
| AudMirror.Aud.OplOverruns | src/core/aud/mix.c:296-301 | returns the directly driven queue's drops since the last call |
| AudMirror.Aud.PcmOpen | src/core/aud/mix.c:513-529 | opens a silent player, once |
| AudMirror.Aud.PcmClose | src/core/aud/mix.c:531-535 | closes it and keeps the underruns of the last step, one fewer than the player has counted exactly when it has run dry since |
| AudMirror.Aud.StdClose | src/core/aud/pcm.c:213-227 | waits while there is a frame to play, and then closes with no underrun forgotten |
| AudMirror.Aud.PcmWrite | src/core/aud/mix.c:537-554 | takes what the directly driven player has room for now, and the renderer gets exactly those bytes |
| AudMirror.Aud.Send | src/core/aud/mix.c:545-552 | bytes sent three to an event, across any overflow, all reach the player in order |
| AudMirror.Aud.PcmLevel | src/core/aud/mix.c:556-560 | the level the program reads is the directly driven player's exactly when it is read in time, and more otherwise |
| AudMirror.Aud.PcmClear | src/core/aud/mix.c:562-567 | the player is emptied now |
| AudMirror.Aud.PcmUnderruns | src/core/aud/mix.c:569-575 | the underruns read are the player's since the last read, or with the device closed those it closed with |
| AudMirror.Aud.Resume | src/core/aud/mix.c:928-953 | after a load both counts are rebuilt from the renderer's engines and agree with them |
| Rsmp.RsmpAt | src/core/aud/rsmp.c:33-48 | the loop's value is the interpolated product of two table rows with the history |
| Rsmp.Resampler.Push | src/core/aud/rsmp.c:50-81 | the history shifts by one and every output is the value at its place on the step grid |
| Rsmp.ConstantUnchanged | src/core/aud/rsmp.py:71-79 | with rows that sum to 2^17 a constant comes out unchanged at every phase |
| Rsmp.OutputCount | src/core/aud/rsmp.c:50-81 | n pushes from reset give ceil(n*2^32/step) outputs and leave the phase at outputs*step - n*2^32 |
| Rsmp.OutputsReach | src/core/aud/rsmp.c:50-81 | a push gives the outputs whose places lie in its unit interval, no more and no fewer |
| Rsmp.ImpulseHeard | src/core/aud/rsmp.c:33-48 | a lone sample comes out weighed by its own column of the two rows, blended by the sixteen bits below the row's |
| Pcm.PcmPlayer.constructor | src/core/aud/pcm.c:65-76 | an opened player is silent, empty and at phase 0 of its format |
| Pcm.PcmPlayer.Put | src/core/aud/pcm.c:78-81 | the bytes that fit are queued, in order |
| Pcm.PcmPlayer.Clear | src/core/aud/pcm.c:83-86 | the queue is emptied and the history left |
| Pcm.PcmPlayer.Store | src/core/aud/pcm.c:109-125 | the doubled ring's next window is the last one shifted by one, with no wrap |
| Pcm.PcmPlayer.Shift | src/core/aud/pcm.c:109-125 | both channels' histories are shift registers |
| Pcm.PcmPlayer.TakeFrame | src/core/aud/pcm.c:109-125 | a frame is decoded and taken, or the history is fed silence, and running dry is counted once |
| Pcm.PcmPlayer.DotBoth | src/core/aud/pcm.c:129-152 | a row of the full table from half a table, whose row 128-p is row p reversed |
| Pcm.PcmPlayer.Sample | src/core/aud/pcm.c:161-179 | both words are the plain resampler's on the shift-register history at that phase |
| Pcm.ClosedForm | src/core/aud/pcm.c:88-95 | phase, bytes left and underruns after n samples in one computation are those after n single ones |
| Pcm.TakesAreSingle | src/core/aud/pcm.c:88-95 | the takes of n samples in one division, and the phase they leave, are those of n single samples |
| Pcm.WrappedSingle | src/core/aud/pcm.c:88-95 | worked out in 64 bits, the takes are theirs modulo 2^32 and the phase is theirs |
| Pcm.TakesWrap | src/core/aud/pcm.c:88-95 | a byte played at half the native rate, and two days on a count of takes that misses it |
| Pcm.SampleBack | src/core/aud/pcm.c:98-107 | a sample survives its bytes: two's complement low byte first in 16 bits, and 128 up in 8 |
| Pcm.FrameTaken | src/core/aud/pcm.c:109-125 | a take leaves the oldest frame's two sounds newest, the second byte group on the right in stereo |
| Pcm.SilenceTaken | src/core/aud/pcm.c:109-125 | with no whole frame a take leaves two zeros newest and the bytes as they are |
| Pcm.FramesPlayed | src/core/aud/pcm.c:98-125 | frames waiting are taken in order, one to a take, and the histories hold the newest |
| Pcm.ConstantHeard | src/core/aud/pcm.c:161-179 | after 24 frames of one sound the two outputs are that sound, at any phase |
| Pcm.SecondTakes | src/core/aud/pcm.c:65-76 | a second of 49716 samples takes as many frames as the format's rate |
| Pcm.FreshMeans | src/core/aud/pcm.c:65-76 | an opened player is silent and empty, and its first sample takes a frame; which formats there are |
| Pcm.PlayMeans | src/core/aud/pcm.c:109-179 | one sample of a player: when a frame is due, what the phase gains, what is left, and that the last whole frame taken counts as running dry |
| Argv.BlobUnique | src/core/api/arg.c:20-66 | a buffer encodes at most one list of strings |
| Argv.BlobMeans | src/core/api/arg.c:20-66 | byte by byte: little-endian offsets, a zero one, and right behind it the strings, each with its zero |
| Argv.AppendedBlob | src/core/api/arg.c:88-105 | table raised by one entry, strings moved up and one written after them is the encoding of the longer list |
| Argv.ReplacedBlob | src/core/api/arg.c:114-146 | the strings past the replaced one slid with their offsets is the encoding of the changed list |
| Argv.PushPull | src/core/api/arg.c:148-169 | what a push of a non-empty list leaves on the stack pulls as that list and no other |
| Argv.CountIs | src/core/api/arg.c:20-26 | the table scan counts the strings |
| Argv.ArgBuf.constructor | src/core/api/arg.c:15-31 | the buffer starts as the empty list |
| Argv.ArgBuf.Count | src/core/api/arg.c:20-26 | the count stays inside the table whatever the bytes |
| Argv.ArgBuf.Clear | src/core/api/arg.c:28-31 | empties the list |
| Argv.ArgBuf.SizeOf | src/core/api/arg.c:59-66 | the bytes the list takes |
| Argv.ArgBuf.Index | src/core/api/arg.c:107-112 | the string at an index, or none |
| Argv.ArgBuf.Append | src/core/api/arg.c:88-105 | succeeds exactly when the longer list fits in 512 bytes, and otherwise changes no byte |
| Argv.ArgBuf.Replace | src/core/api/arg.c:114-146 | succeeds exactly when the index is there and the changed list fits, and otherwise changes no byte |
| Argv.ArgBuf.PushXstack | src/core/api/arg.c:148-154 | the top of the stack is the buffer's bytes |
| Argv.ArgBuf.Validate | src/core/api/arg.c:68-86 | accepts exactly the encodings of the given size, last terminator optional |
| Argv.ArgBuf.PullXstack | src/core/api/arg.c:156-169 | takes the list on the stack exactly when it is well formed, else becomes empty; the stack is emptied |
| TelnetStream.FirstMore | tools/rp6502.py:410-459 | an item that is whole reads the same whatever comes after |
| TelnetStream.ScanSplit | tools/rp6502.py:410-459 | scanning a stream in two parts gives the items of scanning it whole |
| TelnetStream.AnyCut | tools/rp6502.py:410-459 | so does any cut into chunks |
| TelnetStream.EscapedSub | tools/rp6502.py:410-459 | an escaped subnegotiation ends at its own end, 0xFF bytes and all |
| TelnetStream.WireScans | tools/rp6502.py:410-498 | data escaped by the writer, commands and subnegotiations in any order are heard as they were sent |
| TelnetStream.FirstMeans | tools/rp6502.py:410-459 | in the codes of RFC 854: which bytes are user data, a doubled 255, a command with its option, a subnegotiation to its 255 240, or a lone command |
| TelnetStream.EscapedMeans | tools/rp6502.py:496-498 | 255 is doubled, and no other byte |
| TelnetNegotiation.PairSteps | tools/rp6502.py:347-406 | each offer and each delivery keeps one option's two ends and their channels consistent, and a delivery leaves less to settle |
| TelnetNegotiation.PairQuiet | tools/rp6502.py:347-406 | with both channels empty neither end waits and they agree |
| TelnetNegotiation.OfferKeeps | tools/rp6502.py:356-368 | an offer of any option keeps every option consistent |
| TelnetNegotiation.DeliverKeeps | tools/rp6502.py:370-406 | a delivery under any acceptance policy keeps every option consistent |
| TelnetNegotiation.DeliverSettles | tools/rp6502.py:370-406 | a delivery leaves less to settle over all options |
| TelnetNegotiation.DeliverOne | tools/rp6502.py:347-406 | in either direction |
| TelnetNegotiation.Settles | tools/rp6502.py:347-406 | once offers stop, no run of deliveries is longer than what was left to settle |
| TelnetNegotiation.Agreed | tools/rp6502.py:347-406 | at quiescence no side waits, and one's "us" is enabled exactly when the other's "him" is, for every option |
| TelnetNegotiation.RunAgrees | tools/rp6502.py:347-406 | from two fresh endpoints, after any offers and arrivals in any order, both of these |
| TelnetNegotiation.RunEnables | tools/rp6502.py:347-406 | what they agree on: at quiescence an option is enabled on a's side, at both ends, exactly when a offered it and b accepts it or b asked for it and a accepts it, and the same for b's side; undecided only when both an offer and a request were made and both refuse |
| TelnetNegotiation.CrossingDecides | tools/rp6502.py:347-406 | and then it is enabled when the two cross and not when one follows the other |
| TelnetNegotiation.RunSettles | tools/rp6502.py:347-406 | after any run, once offers stop, at most twice as many messages arrive as are on the way |
| TelnetConsole.TelnetDevice.OfferWill | tools/rp6502.py:356-361 | the negotiator's offer of our side and the bytes it sends |
| TelnetConsole.TelnetDevice.OfferDo | tools/rp6502.py:363-368 | the negotiator's offer of the other side and the bytes it sends |
| TelnetConsole.TelnetDevice.RecvDo | tools/rp6502.py:370-379 | the negotiator's step on DO: a side that is off comes on and answers WILL for BINARY, or stays off and answers WONT; one waiting comes on; nothing else changes |
| TelnetConsole.TelnetDevice.RecvDont | tools/rp6502.py:381-387 | the negotiator's step on DONT: the side is off, and WONT is answered when it was on |
| TelnetConsole.TelnetDevice.RecvWill | tools/rp6502.py:389-398 | the negotiator's step on WILL: the other side comes on and DO is answered for BINARY, or DONT and it stays off; one waiting comes on; nothing else changes |
| TelnetConsole.TelnetDevice.RecvWont | tools/rp6502.py:400-406 | the negotiator's step on WONT: the other side is off, and DONT is answered when it was on |
| TelnetConsole.TelnetDevice.StripIac | tools/rp6502.py:410-459 | returns the user bytes of what was pending and the chunk, keeps the unfinished rest, and answers each negotiation in order |
| TelnetConsole.TelnetDevice.FirstItem | tools/rp6502.py:410-459 | the next item, or that it is not whole yet |
| TelnetConsole.TelnetDevice.SkipSub | tools/rp6502.py:410-459 | the end of a subnegotiation, or that it is not there yet |
| TelnetConsole.TelnetDevice.Write | tools/rp6502.py:496-498 | sends the data with each 0xFF doubled |
| TelnetConsole.FeedIsWhole | tools/rp6502.py:410-459 | however the stream is cut, the same user bytes, answers, options and unfinished rest |
| TelnetConsole.Delivered | tools/rp6502.py:410-498 | the user is given exactly the data sent, whatever commands and subnegotiations are between and however the stream is cut |
| MonitorText.ParseNumber | src/core/str/str.c:275-321 | decimal or hex by its prefix, the whole word, refused when it exceeds 32 bits |
| MonitorText.HexValues | src/core/str/str.c:275-321 | the hex digits, letters in either case, and what each is worth |
| MonitorText.TrimMeans | src/core/str/str.c:275-321 | spaces are skipped, and nothing else |
| MonitorText.DecBack | src/core/str/str.c:275-321 | a decimal number is read back up to 2^32 - 1, and refused from there on |
| RomText.HexBackAnyhow | src/core/str/str.c:275-321 | a hex number is read back after $, 0x or 0X, in upper case and in lower |
| RomText.HexBack | src/core/str/str.c:275-321 | a hex word of any width the packer prints is read back, and the rest of the line with it |
| Quoting.StrParser.Parse | src/core/str/str.c:323-427 | the next argument in the static buffer, terminated, at most 255 bytes, and the rest of the line |
| Quoting.StrParser.InQuotes | src/core/str/str.c:323-427 | a quoted argument up to its closing quote |
| Quoting.StrParser.Unescape | src/core/str/str.c:323-427 | one escape: letter, octal or hex, refused when it is NUL |
| Quoting.QuoteArg | tools/rp6502.py:599-615 | the loop's text is each byte quoted between two quotes |
| Quoting.ByteBack | tools/rp6502.py:599-615 | every byte but NUL, quoted, is read back whatever follows it |
| Quoting.BytesBack | src/core/str/str.c:323-427 | so is every run of bytes, exactly when it fits and has no NUL |
| Quoting.QuoteBack | src/core/str/str.c:323-427 | a quoted argument is read back as itself exactly when it is at most 255 bytes with no NUL, and refused otherwise |
| Quoting.BareBack | src/core/str/str.c:416-419 | text with no space, quote or zero is read back as itself, alone or before anything else of the argument |
| Quoting.PiecesBack | src/core/str/str.c:331-420 | so is an argument of any such pieces and quoted ones, exactly when it has at most 255 bytes and no zero |
| Quoting.LineBack | src/core/str/str.c:323-438 | and a line of such arguments, each bare, quoted or both in pieces: the same list exactly when all fit |
| Quoting.QuotedLineBack | tools/rp6502.py:599-615 | a list quoted by the console is read back exactly when each has at most 255 bytes and no zero |
| Quoting.LetterEscapes | src/core/str/str.c:345-367 | \n, \t, \r, \a, \b, \f and \v |
| Quoting.OtherEscapes | src/core/str/str.c:401-407 | any other character after a backslash, or after none, is itself |
| Quoting.HexEscape | src/core/str/str.c:368-381 | hex digits in either case, however many, stand for the low byte of their number, and 0 is refused |
| Quoting.OctalEscape | src/core/str/str.c:382-400 | one to three octal digits, as far as there are any |
| RomLoader.ReadLine | src/core/rom/pump.c:73-95 | a line, its LF and one CR before it dropped, cut at what the line buffer holds; none at the end of the file |
| RomLoader.Loader.Deposit | src/core/rom/rom.c:27-44 | a record's bytes land in RAM, extended RAM or the vector registers, $FF00-$FFF9 dropped, and nothing else changes |
| RomLoader.Loader.Load | src/core/rom/rom.c:53-89 | records are deposited until the program ends, and the load succeeds exactly when all were good and the reset vector was among them |
| RomLoader.NextGot | src/core/rom/pump.c:154-190 | a record handed over is the file's own bytes after its header, checked, inside RAM or inside XRAM, and raises the vector flags for exactly the bytes it holds |
| RomLoader.ShebangMeans | src/core/rom/pump.c:107-115 | a first line heads a ROM exactly when it starts with #! and spells rp6502 somewhere after it, in any case |
| RomLoader.LineMeans | src/core/rom/pump.c:73-95 | a line is what comes before the first newline, less one carriage return, cut at what the buffer holds; there is none at the end of the file or from 2^31 on |
| RomLoader.DepositMeans | src/core/rom/rom.c:27-44 | where each byte of a record goes, address by address |
| RomImage.Rom.AddAsset | tools/rp6502.py:946-954 | a new name is appended, a known one replaced in its place or refused; no two assets come to share a name |
| RomImage.Rom.AllocateRom | tools/rp6502.py:1085-1094 | marks the range, or is refused and leaves the marks before the first address that was taken |
| RomImage.Rom.AddBinaryData | tools/rp6502.py:956-961 | succeeds exactly when the range is in the address space and unmarked, and then adds exactly those bytes; refused, it adds none and leaves the marks it made |
| RomImage.Rom.AddVector | tools/rp6502.py:963-985 | a 16-bit address, low byte first, at a free vector |
| RomImage.Rom.NextRomData | tools/rp6502.py:1100-1114 | the first marked address at or above, and as many bytes from it as 1 KB and its 64 KB page allow; fails on one that has none |
| RomImage.PackedOneWay | tools/rp6502.py:1100-1114 | an image can be cut into such chunks in one way only |
| RomImage.HoldsMeans | tools/rp6502.py:1100-1114 | a chunk is bytes that are there, at most 1024, inside one 64 KB page, and as many as that allows |
| RomImage.PlacedMeans | tools/rp6502.py:946-954 | an asset goes at the end, in the place of the first of its name, or nowhere |
| RomImage.ImageText | tools/rp6502.py:1116-1138 | the text of an image, character by character |
| RomImage.Rom.ToBytes | tools/rp6502.py:1116-1138 | fails exactly when a marked address has no byte or a name is not ASCII; the bytes written are those of the one way memory cuts into longest chunks of at most 1 KB inside one page, all of memory and nothing else, then the assets |
| RomRoundTrip.LineAt | src/core/rom/pump.c:73-95 | a line the packer ended with CR and LF is read back |
| RomRoundTrip.ChunkHeadShape | src/core/rom/pump.c:29-47 | a packed chunk's header line is read as its address, length and checksum |
| RomRoundTrip.NextChunk | src/core/rom/pump.c:154-190 | a packed chunk is read as its record and its bytes, and the vector flags say what it covered |
| RomRoundTrip.LoadChunks | src/core/rom/rom.c:53-89 | all packed chunks are deposited, and the load succeeds exactly when they cover the reset vector |
| RomRoundTrip.DepositsLand | src/core/rom/rom.c:27-44 | after them every byte of the image is at its address and all else is as it was |
| RomRoundTrip.EntryOpens | src/core/rom/pump.c:117-152 | the pump takes the first entry for the program, whatever its name and whatever follows it |
| RomRoundTrip.EntryRefused | src/core/rom/pump.c:117-152 | unless it is 2^32 bytes or more, when the image is refused |
| RomRoundTrip.OpenDirectory | src/core/rom/pump.c:117-152 | with a head the line buffer holds, the program is exactly the entry's data |
| RomRoundTrip.DirectoryLoads | src/core/rom/rom.c:53-89 | a directory that starts with a memory's chunks, under whatever name and whatever follows, loads exactly when they hold the reset vector, and leaves every byte at its address but for $FF00-$FFF9 |
| RomRoundTrip.LoadsExactly | src/core/rom/rom.c:53-89 | whatever is packed below 0x20000, the image does as it should to every memory exactly when it has a byte in it, or there is no asset, or the first one is 2^32 bytes or more, or no record among its data and what follows leaves a byte |
| RomRoundTrip.ClassicLoads | src/core/rom/pump.c:117-190 | a classic image, any shebang and then chunks to the end of the file, loads as their memory from the first chunk on, and has no asset directory |
| RomRoundTrip.DirectoryRefused | src/core/rom/pump.c:131-148 | a second line that starts a directory and does not go on with two numbers makes the image refused |
| RomRoundTrip.RecordChecked | src/core/rom/pump.c:154-190 | a line of three numbers is a record exactly when it has a byte and at most 1024, lies inside RAM or inside XRAM, and its bytes are there with the checksum it says; else an error |
| RomRoundTrip.LineChecked | src/core/rom/pump.c:154-175 | a blank line and a comment are passed over, and any other that starts with no number is an error |
| RomRoundTrip.WrongCount | src/core/rom/pump.c:29-47 | a line of one number, of two or of three and more is no record |
| RomRoundTrip.NothingPacked | src/core/rom/pump.c:154-190 | an image of no memory and no assets opens, and stores nothing |
| RomRoundTrip.AssetLoads | src/core/rom/pump.c:117-152 | an image of no memory whose first asset holds another memory's chunks loads that memory |
| RomRoundTrip.LoadedByte | src/core/rom/rom.c:27-89 | after any load each byte is the last one a record stored there, or as it was |
| RomRoundTrip.LoadStoresVector | src/core/rom/rom.c:53-89 | a load that succeeds has stored both bytes of the reset vector |
| RomRoundTrip.PackAndLoad | tools/rp6502.py:1096-1098 | packed and loaded, a ROM with a byte in it lands at its addresses, and the load succeeds exactly when the packer says it has a reset vector |
| RomReader.AddRomFile | tools/rp6502.py:1049-1083 | adds what the image holds in order, and succeeds exactly when all of it reads and can be added; refused, it leaves exactly what came before |
| RomReader.ChunksBack | tools/rp6502.py:1024-1047 | packed chunks are read back as they were, checksums matching |
| RomReader.OneEntryBack | tools/rp6502.py:1049-1083 | an entry under any ASCII name with no newline comes back under that name stripped, whatever its length, or as chunks when nothing is left of it |
| RomReader.AssetsBack | tools/rp6502.py:1049-1083 | packed assets with plain names are read back by name and bytes |
| RomReader.NamesRead | tools/rp6502.py:1049-1083 | every name the reader gives an asset is plain: ASCII, some of it, with no newline and no white space around it |
| RomReader.ImageBack | tools/rp6502.py:1049-1138 | a packed image with plain names is read back as its chunks and assets |
| RomReader.RomBack | tools/rp6502.py:1049-1138 | adding a packed image to an empty ROM gives the same memory and the same assets exactly when every name is plain and no two are alike |
| RomReader.NameChanged | tools/rp6502.py:1049-1138 | an asset whose name has white space around it comes back under another name |
| RomReader.NameLost | tools/rp6502.py:1049-1138 | one whose name is empty or white space comes back as memory |
| RomReader.Reread | tools/rp6502.py:1049-1138 | packing a ROM and adding the image to a new one gives the same ROM exactly when every name is plain |
| RomReader.ChunkChecked | tools/rp6502.py:1024-1047 | a chunk is read exactly when all its bytes are there and have the checksum its line says |
| RomReader.EntryChecked | tools/rp6502.py:1049-1083 | an entry cut short is refused, and an empty line ends the reading |
| RomReader.ShebangChecked | tools/rp6502.py:1049-1056 | an image is read exactly when its first line is a shebang that spells rp6502 |
| RomReader.IntBack | tools/rp6502.py:925-931 | numbers in decimal with no zero in front, and in hex after $ or 0x in either case, are read back |
| RomReader.AddedMeans | tools/rp6502.py:956-961 | a chunk is added exactly where every byte is free and below $1000000, and changes no other |
| RomReader.HeaderWords | tools/rp6502.py:1024-1047 | a chunk's line is three words, each a number, and no other is |
| RomReader.EntryHeader | tools/rp6502.py:1049-1083 | an entry's line is "#>", a number, a word and the name, and no other is |
| RomReader.LineRefused | tools/rp6502.py:1024-1083 | nothing is read past a line that is no header, is not ASCII or, of a chunk, has no end |
| RomReader.LastLine | tools/rp6502.py:1049-1083 | a last line with no newline is a line like any other |
| RomReader.PlainNameMeans | tools/rp6502.py:1049-1083 | the white space that is stripped, and the names it leaves alone |
| RomReader.IntOthers | tools/rp6502.py:925-931 | binary after 0b, zeros, and no letter in a decimal number |
| RomAsset.FindPacked | src/core/rom/asset.c:175-199 | over packed entries the scan ends, and gives the place and length of the first whose name has the same characters, letters in either case, or none |
| RomAsset.NamesAlike | src/core/rom/asset.c:156-168 | two names match exactly when they are as long and each pair of characters is the same, or a letter and its other case, 32 apart |
| RomAsset.NameMeans | src/core/rom/asset.c:175-199 | the names an asset is found by: at most 487 ASCII characters and no blank in front |
| RomAsset.BlanksMean | src/core/rom/asset.c:186-189 | spaces and tabs before a name are skipped, and nothing else |
| RomAsset.HeadingMeans | src/core/rom/asset.c:181-189 | what an entry's header line says, and which lines are none |
| RomAsset.PackedAsset | src/core/rom/asset.c:175-199 | on a packed image of at most 2^31 bytes, with memory or without, the scan ends for every name, and finds exactly the bytes of the first asset whose name has the same characters, letters in either case, passing over every other |
| RomAsset.ScanEnds | src/core/rom/asset.c:175-199 | a scan ends at all exactly when it ends within as many lines as the file has bytes, and one more |
| RomAsset.ForwardEnds | src/core/rom/asset.c:175-199 | it does when no entry's length runs past 2^32 |
| RomAsset.LoadedLoops | src/core/rom/asset.c:175-199 | an image that loads, and on which looking for anything but one asset never ends |
| RomAsset.SliceExactly | src/core/rom/asset.c:228-237 | in a file the driver can seek all of, the bytes read are the window's exactly when it can seek to them; in any file the read is at their place exactly then, or when the refused seek finds the descriptor there |
| RomAsset.ReadsElsewhere | src/core/rom/asset.c:228-237 | an image that loads, an asset opened, read, sought 2^31 - 1 bytes on and read again: the second read is the file's next byte and none of the window's |
| RomAsset.ReadsJoin | src/core/rom/asset.c:317-338 | reads one after the other join to one slice: no byte twice and none passed over |
| RomAsset.AssetDrive.FindAsset | src/core/rom/asset.c:175-199 | gives the first entry of the name from the directory's start, for a directory the scan comes to an end of |
| RomAsset.AssetDrive.Open | src/core/rom/asset.c:251-271 | a free slot becomes a window on the asset at position 0; fails exactly when there is no asset or no slot |
| RomAsset.AssetDrive.Close | src/core/rom/asset.c:305-315 | frees an open window only |
| RomAsset.AssetDrive.Read | src/core/rom/asset.c:317-338 | reads what the count, the driver, the window and the file allow, never past the window's length, and moves on by that much; the bytes are the window's exactly where the driver can seek to them, else those after the descriptor |
| RomAsset.AssetDrive.WindowReads | src/core/rom/asset.c:305-373 | whatever opens, reads, seeks and closes came before, on a packed image of at most 2^31 bytes each open window reads the bytes of the asset it was opened as |
| RomAsset.AssetDrive.Lseek | src/core/rom/asset.c:347-373 | seeks inside the window, past its end to its end, and refuses a negative place or a start that is negative as a signed word |

## Left out

- OplEngine.Opl.Sample: test bits 0 and 2, the timers 02-04 and the status register are absent, as in the engine; slots and channels are values in arrays, so a pointer from a slot to its view is an index.
- OplEngine.Opl.Push: the ring of `ring.h` is a sequence of at most 256 writes, without its indices.
- OplEngine.Opl.Save: the cursor is the 860 bytes it covers, without the container's row header.
- OplEngine.Opl.Load: a chunk shorter than 860 bytes is refused as a whole, where the cursor runs dry field by field.
- AudMirror.Aud.XramWrite: the PSG half of the write is not modelled, and its offset rides along unread; the clock is a parameter that does not go back, the renderer is within half the stamp range, and the event ring is not filled by events of one sample.
- AudMirror.Aud.PcmWrite: the same bound on the event ring, for the events one call sends; and a count stepped in time (what a late step does to it is what `PmStep` states).
- AudMirror.Aud.PcmClear: the same bound on the step.
- AudMirror.Aud.PcmUnderruns: the same bound on the step, while the device is open.
- AudMirror.Aud.StdClose: the same bound on the step.
- AudMirror.Aud.Mix: `aud_off` is 0; the PSG, the bell and the probe are not in the sum.
- AudMirror.Aud.Resume: takes the engines as their rows leave them; the bytes of the mix's own row are not modelled.
- Pcm.PcmPlayer.Sample: sums are unbounded, so a coefficient table whose sums overflow is not modelled.
- Rsmp.RsmpAt: sums are unbounded in the same way.
- Argv.ArgBuf.Append: a string of 65535 bytes or more, whose length would wrap, is not modelled.
- Argv.ArgBuf.Replace: the same bound on the string.
- TelnetNegotiation.RunEnables: an option both offered and asked for, and refused by both, is decided by the order of arrival alone; `CrossingDecides` gives an order for each outcome.
- TelnetConsole.TelnetDevice.StripIac: sockets, time-outs, `open` and `read` are not modelled; what is sent is one growing string.
- Quoting.QuoteArg: arguments are bytes; the code page that turns text into them is not modelled.
- OplEngine.Opl.Load: what the engine goes on to do from an accepted image whose keys and stages disagree is not stated.
- RomLoader.Loader.Load: the file driver's reads succeed, its seeks are refused from 2^31 on only, and the checksum is one uninterpreted function.
- RomImage.Rom.ToBytes: checksums are one uninterpreted function of the bytes.
- RomImage.Rom.AddAsset: the characters of a name are below 256.
- RomReader.AddRomFile: starts from a ROM in which every marked address has its byte; the marks a refused chunk leaves are those of `AllocateRom`, and are not stated again.
- RomAsset.PackedAsset: a name is empty, or is ASCII, fits the 512-byte line buffer with its header (487 bytes) and does not start with a blank.
- RomAsset.AssetDrive.FindAsset: header lines are compared byte by byte, as the original compares ASCII ones; a scan that does not end has no result to state.
- RomAsset.AssetDrive.Open: the path prefix is cut off, and errno values are one failure.
- The streaming sink (`aud_stream`, `aud_settle`), the lock and the atomics: a floating-point control loop between host threads.
- The PSG, the bell, `aud_stop` and the mix's savestate bytes: counters, deadlines and plain fields beside these queues.
- Contents of the log-sine, exponential and coefficient tables: any table in the ranges and sums their generators enforce.
- `arg_set_data`, window savestates, `rom_read_asset`, aliases and `add_binary_file`: they repeat operations modelled here.
- Serial ports, terminal emulation, file systems, HID, the DAP server and the debug-information readers: input and output, tables and library glue.
