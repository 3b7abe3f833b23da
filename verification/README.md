# Verified cores of the emulator

A Dafny model of five parts of the emulator that share no state, with proofs of what each of them
promises:

* the **Paula audio engine** (`src/core/audio.cpp`): a discrete-event loop that carries four sound
  channels and the sample clock to the current cycle, the channel state machine it calls, the register
  writes and delayed events around it, the band-limited step queue, the DMA length counter and the stereo
  delay line;
* the **thread pipe** (`include/commpipe.h`) and the **host audio ring** (`od-leopard/leuae-audio.c`):
  one producer and one consumer, every interleaving of their steps;
* the **restartable bus accesses** of the 68030 (`include/cpummu030.h`);
* the **item pool** and the **growable array** of `include/tinyxml2.h`;
* the **boot-ROM area**, its relocation table (`src/core/autoconf.cpp`) and the code that splits memory
  accesses at page and bank boundaries (`include/cpummu.h`, `include/mmu_common.h`, `include/memory.h`).

## How it is built

Each part has a specification on values (datatypes and functions), lemmas that state what the source
promises about it, and, because the source changes its data in place, a class whose methods change
arrays and fields the way the source does and are proved to do what the specification says.

| files | part |
|---|---|
| `PaulaChannel`, `PaulaEngine`, `PaulaRegisters`, `PaulaPlayback`, `PaulaClaims`, `PaulaRuns`, `PaulaHacks`, `PaulaLowPeriod`, `PaulaLoop`, `PaulaHistory`, `PaulaSound`, `PaulaLevel`, `PaulaBytes`, `PaulaEffects`, `PaulaFlags`, `PaulaWords`, `PaulaClock`, `PaulaFeeds`, `PaulaSteps`, `PaulaAverage`, `PaulaDevice`, `Blep`, `StereoDelay` | Paula |
| `CommPipe`, `CommService`, `AudioRing`, `AudioCalls` | the concurrent protocols |
| `AccessLog`, `AccessPass`, `PageSplit`, `BankSplit` | accesses |
| `MemPool`, `DynArray` | containers |
| `RelocTable`, `RomArea`, `RomBytes` | the boot-ROM area |
| `Arith`, `Collections` | division, words, byte order, sequences without repetition |

`dafny verify dfyconfig.toml` checks everything.

What the model assumes:

* time is a mathematical integer in `PaulaEngine`, and `next_sample_evtime` a real number; the sound
  engine's own 32-bit counters (`sample_accum`, `sinc_queue_time`) wrap as in the source;
* `PERIOD_MAX` is INT_MAX, the FS-UAE value (`include/audio.h:23`), and `scaled_sample_evtime` is at
  least 1;
* DMACON, ADKCON, INTREQ, INTENA, the line length and the preferences that the channels look at stay
  fixed within one call of update_audio; any of them may change between calls. The sound output mode and
  the interpolator stay fixed over a run: the source re-initialises the audio system when they change;
* interrupts and DSR events are logged at the emulated time the engine has reached. The source posts them
  at the cycle count of the call that gets there, so what does not depend on how time is cut is their
  emulated time, number and order;
* the two protocols run under sequential consistency, one shared access or semaphore operation a step;
* memory holds bytes as integers from 0 to 255, and the bitwise masks and shifts of the source are
  written as remainders and quotients;
* one 68030 instruction is a finite tree of accesses in which each access may depend on the values seen
  so far; the bus answers in any way, faults included;
* the MMU's table search is any function from page, mode and direction to an aligned frame or a fault.

Where the source and its own remarks disagree the model follows the source:

* the step queue's comment takes a minimum period of 8 time units as enough
  (`src/core/audio.cpp:90-91`). That holds while less than 2^32 time units have passed;
  `Blep.WrapCanDisagree` gives the run in which the 32-bit clock makes a stale step young again, and
  `Blep.RingAgreesWithHistory` the exact condition;
* `save_rom_absolute` looks at the table's size before it looks for duplicates, so a full table aborts
  even for an address it already holds (`RelocTable.StopsWhenFull`);
* `put_sound_word_left` takes the base value off both inputs but adds it back only to the first word
  (`StereoDelay.SecondWordLacksBase`);
* a long write to the last word of a write window reaches two bytes past it
  (`RomArea.KeepsRomExactlyWhen`);
* the lock-free path of the pipe is safe only for `chunks < size`, which nothing in the source checks
  (`CommPipe.SafeExactlyWhenChunksFit`);
* `get_longi_compatible` splits in words also at odd addresses
  (`BankSplit.LongiCrossesExactlyWhen`).

## Model

| member | source | states |
|---|---|---|
| `CommPipe.SafeExactlyWhenChunksFit` | include/commpipe.h:71-121 | with two slots or more: in every interleaving of writer and reader the values read are a prefix of those written and no unread slot is overwritten, if and only if `chunks < size` |
| `CommPipe.NeverBothStuck` | include/commpipe.h:84-110 | in no reachable state are both threads blocked; a woken reader finds a value and a woken writer finds room, though neither tests again |
| `CommPipe.WaitingMeansBuffered` | include/commpipe.h:63-79 | between writes a reader is left waiting only while fewer than `chunks` values (or none) are queued and none of them was sent with no_buffer |
| `CommPipe.WokenReaderReceivesAll` | include/commpipe.h:63-121 | after a write that reaches `chunks` or has no_buffer set, the reader running alone receives everything written so far, in order |
| `CommPipe.ReaderDrains` | include/commpipe.h:100-121 | from any reachable state whose reader is not left waiting, finitely many reader steps empty the pipe in order |
| `CommService.CallsAreServed` | include/commpipe.h:71-121 | over every schedule no call is lost, repeated or changed: the values written are those of the calls in order, but for the one under way, and every call of the reader but the one under way has been given one of them, in the same order |
| `CommService.WriteWithRoom` | include/commpipe.h:71-98 | from any reachable state with room in the pipe and the reader outside its critical section, the writer running alone returns and has added exactly its value |
| `CommService.WakesExactlyWhen` | include/commpipe.h:63-69 | in every reachable state a write that finds the reader waiting wakes it if and only if it has no_buffer set or the pipe now holds `chunks` values |
| `CommPipe.ExecInv` | include/commpipe.h:63-121 | the invariant of lock, semaphores, waiting flags and ring holds after every schedule |
| `CommPipe.WriterStepInv` | include/commpipe.h:71-98 | every step of the writer, with or without the lock, keeps that invariant |
| `CommPipe.ReaderStepInv` | include/commpipe.h:100-121 | every step of the reader keeps it |
| `CommPipe.QueuedIsCount` | include/commpipe.h:65-84 | the modular distance and the full and empty tests mean the number of queued values |
| `CommPipe.Overrun` | include/commpipe.h:75-81 | with `chunks >= size` there is a schedule in which the lock-free path overwrites an unread value |
| `CommPipe.SmpCommPipe.constructor` | include/commpipe.h:43-54 | a new pipe is the initial state of the protocol, whatever the slots hold |
| `CommPipe.SmpCommPipe.MoveWriter` | include/commpipe.h:71-98 | one step of write_comm_pipe_pt on the fields is one writer step of the protocol |
| `CommPipe.SmpCommPipe.MaybeWakeReader` | include/commpipe.h:63-69 | the steps of maybe_wake_reader on the fields |
| `CommPipe.SmpCommPipe.MoveReader` | include/commpipe.h:100-121 | one step of read_comm_pipe_pt_blocking on the fields is one reader step |
| `AccessLog.FaultsLeaveOnePass` | include/cpummu030.h:264-298 | for every instruction, bus and pattern of faults: over all attempts the bus sees exactly the accesses of one pass, and result and program counter are those of that pass |
| `AccessLog.FaultsAreInvisible` | include/cpummu030.h:264-298 | if stored intermediate values do not depend on the attempt, a single fault-free run makes the same accesses, logs the same values and ends in the same result and program counter |
| `AccessPass.AccessesAreMade` | include/cpummu030.h:425-558 | over all attempts: one access for each action that goes to the bus, at the address and of the size the action asks for, fetches and peeks counted from two bytes per word and four per long fetched so far, modulo 2^32; the program counter ends behind them; the values are the replies of the bus in order, and the instruction ends unless these run out |
| `AccessPass.FetchesAreContiguous` | include/cpummu030.h:540-558 | the first fetch reads at the start and every fetch where the one before it ended |
| `AccessLog.Replay` | include/cpummu030.h:271-282 | a restart answers from the log and continues exactly where the fault struck |
| `AccessLog.ExecuteKeepsPass` | include/cpummu030.h:284-288 | over all restarts a logged entry is never overwritten: the log only grows |
| `AccessLog.PerformKeepsPass` | include/cpummu030.h:425-510 | one access, replayed, completed or faulting, keeps bus, log and program counter those of one pass |
| `AccessLog.AttemptKeepsPass` | include/cpummu030.h:425-510 | so does a whole attempt |
| `AccessLog.HealedExecute` | include/cpummu030.h:264-298 | resuming from any reachable log with faults, or running on without them, comes out the same |
| `AccessLog.Mmu030.GetState` | include/cpummu030.h:271-288 | the getters and next_iword/next_ilong on mmu030_ad, mmu030_idx and mmu030_idx_done |
| `AccessLog.Mmu030.PutState` | include/cpummu030.h:264-285 | the putters; the value logged is the one kept in mmu030_data_buffer_out |
| `AccessLog.Mmu030.StateStore` | include/cpummu030.h:290-298 | the first value stored at a position is the one every later attempt gets |
| `AccessLog.Mmu030.RunOnce` | include/cpummu030.h:425-558 | one run over an instruction in place is one attempt of the model |
| `AccessLog.LimitOnlyHalts` | src/core/newcpu.cpp:5882-5911 | with at most 50 restarts: the outcome is the unlimited one unless the CPU is halted, and the bus has seen one pass in any case |
| `AccessLog.HaltsExactlyWhen` | src/core/newcpu.cpp:5882-5911 | the CPU is halted if and only if the instruction takes more faults than there are restarts |
| `AccessLog.Mmu030.Run` | src/core/newcpu.cpp:5880-5914 | the retry loop: index back to 0, log and its length kept, until the instruction ends or, after more than 50 faults, the CPU is halted |
| `Blep.RingAgreesWithHistory` | src/core/audio.cpp:640-669 | for changes 8 or more apart the early-stopping scan of the 256 entries visits exactly the changes younger than 2048 out of the unbounded history if and only if the first older change is not aliased by the 32-bit clock; then the sums are equal |
| `Blep.QueueAgrees` | src/core/audio.cpp:640-669 | the same for any queue and history that mirror each other |
| `PaulaSteps.ChangesAreSpaced` | src/core/audio.cpp:618-636 | from reset over any run that leaves a channel unattached and takes no tracker-player hack, its level changes are in fact recorded 8 or more time units apart |
| `PaulaSteps.SamplesAreIdeal` | src/core/audio.cpp:618-669 | so in every state reached a sample is the one the unbounded history gives, unless the 32-bit clock has wrapped an old change back into range; before 2^32 time units it never has |
| `PaulaSteps.EmittedIsIdeal` | src/core/audio.cpp:2430-2457 | and that is the value a pass of update_audio puts out |
| `PaulaSteps.EverySampleIsIdeal` | src/core/audio.cpp:2430-2457 | over such a run every sample put out is the one that the history of level changes up to its time gives, unless the 32-bit clock had wrapped an old change back into range; before 2^32 time units it never has |
| `Blep.ShortRunsAgree` | src/core/audio.cpp:640-669 | while the emulated time stays below 2^32 the sums always agree |
| `Blep.WrapCanDisagree` | src/core/audio.cpp:634-664 | a channel silent for 2^32 + 5 time units: the scan adds a step that is long over |
| `Blep.DeltasTelescope` | src/core/audio.cpp:627-631 | all recorded deltas add up to sinc_output_state |
| `Blep.RunMirrors` | src/core/audio.cpp:618-636 | after any run the ring holds the newest 256 changes in order, newest at the head |
| `Blep.YoungFit` | src/core/audio.cpp:89-92 | changes 8 apart: at most 256 are young, which is what the queue length promises |
| `Blep.SincChannel.SincPrehandler` | src/core/audio.cpp:618-636 | one channel of sinc_prehandler_paula in place |
| `Blep.SincChannel.SincSample` | src/core/audio.cpp:640-675 | the scan loop computes the sample of the model |
| `PaulaChannel.ServiceArms` | src/core/audio.cpp:1736-2011 | from every reachable state, due or not, a call of the state machine leaves the channel waiting a positive time or MAX_EV, in a known state, with a period of a cycle unit or more |
| `PaulaEngine.TimeSlicing` | src/core/audio.cpp:2382-2483 | running a then b time units equals running a + b: channels, accumulators, step queues, sample clock, emitted samples, interrupts and events |
| `PaulaClock.SamplesComeOnTime` | src/core/audio.cpp:2397-2443 | over any run of operations the samples put out are exactly those whose time has come, sample k at the rounded time of k distances after the next one due, and the clock has lost the time that passed and gained one distance per sample |
| `PaulaClock.SamplesFromReset` | src/core/audio.cpp:2397-2443 | from reset sample k is put out if and only if k + 1 sample distances, rounded, have passed, and at that time |
| `PaulaEngine.BestEventIs` | src/core/audio.cpp:2384-2408 | a pass takes at least one unit and either all the time left or exactly up to the next channel or sample event |
| `PaulaEngine.PassKeepsInv` | src/core/audio.cpp:2383-2475 | a pass advances the time by what it took and leaves every channel armed and next_sample_evtime at least one half |
| `PaulaEngine.RunKeepsInv` | src/core/audio.cpp:2382-2483 | the loop terminates with all the time consumed and every channel armed |
| `PaulaEngine.ServeDueArms` | src/core/audio.cpp:2471-2475 | the service loop re-arms every channel whose time has come, also when an earlier channel modulates a later one |
| `PaulaEngine.PrehandleAdds` | src/core/audio.cpp:591-636 | both prehandlers are additive over time, including their 32-bit wrap |
| `PaulaEngine.RoundedShifts` | src/core/audio.cpp:2397-2401 | rounding the sample clock commutes with whole steps |
| `PaulaEngine.WaitAdds` | src/core/audio.cpp:2409-2429 | waiting twice is waiting once, and the horizon moves along |
| `PaulaRegisters.UpdateAlwaysCatchesUp` | src/core/audio.cpp:2368-2484 | from reset through any run of register writes, DMA events and calls, update_audio terminates with last_cycles at now |
| `PaulaRegisters.CallsCanBeSplit` | src/core/audio.cpp:2368-2484 | in every reachable state a further call in between changes nothing |
| `PaulaRegisters.ApplyKeepsValid` | src/core/audio.cpp:2511-2744 | every operation keeps all channels armed |
| `PaulaRegisters.PerWrittenArms` | src/core/audio.cpp:2685-2714 | every value written to AUDxPER leaves a period of at least one cycle unit and a positive waiting time |
| `PaulaRuns.PeriodWrittenIs` | src/core/audio.cpp:2692-2713 | after every write the period is the value in units of 512, 65536 for zero; below 60 it is 60 while the stored enable flag is on and the CPU is not cycle exact; only the first write after reset starts the waiting time |
| `PaulaRegisters.DataArrivesKeepsInv` | src/core/audio.cpp:2511-2557 | so does the delayed DMA data event |
| `PaulaRuns.EveryByteIsHeldForItsPeriod` | src/core/audio.cpp:1679-2011 | over any run that leaves a channel unattached and takes no tracker-player hack (a condition on the state before each operation): the bytes heard are the high and low byte of every word moved into dat2, in order, each held exactly for the period in force when it began, with DMA, without, and across switches, whatever is written meanwhile |
| `PaulaRuns.WordsAreHeardInOrderAndInTime` | src/core/audio.cpp:1679-2011 | such a run in which every operation keeps the period at p holds every byte that begins exactly p |
| `PaulaRuns.PeriodStaysExactlyWhen` | src/core/audio.cpp:1510-1525 | an operation keeps the period of an unmodulated channel if and only if it writes no other period and does not make the low period hack fire |
| `PaulaLevel.VolumeIsLastWritten` | src/core/audio.cpp:1527-1535 | after a write to AUDxVOL, over any run without another one: the register, and the volume noted for every byte that begins, is the 7-bit value written, 64 at most |
| `PaulaLevel.LevelIsHeard` | src/core/audio.cpp:1567-1733 | from reset over any run that leaves a channel unattached and audible and takes no tracker-player hack: the sample is the byte last begun read as signed, the volume the register as it stood when that byte began (for a low byte by hand, when its high byte began), and the level has been that of the bytes due at every time so far |
| `PaulaLevel.EveryPlainSampleIsHeard` | src/core/audio.cpp:2430-2457 | without interpolation every sample put out over such a run is that byte times that volume |
| `PaulaLevel.EveryMeanIsHeard` | src/core/audio.cpp:591-616 | with the accumulating interpolator every sample is the mean of these products since the sample before |
| `PaulaBytes.SampleIsSignedByte` | src/core/audio.cpp:1567-1587 | for every state and setting, attached or not: a call begins at most one byte, and the sample is from then on that byte read as signed, or 0 for a muted channel |
| `PaulaBytes.ChecksAre` | src/core/audio.cpp:1684-1720 | for every state: what a call has found out about the interrupt at the end of a word by hand, one cycle unit before the end of the low byte or where it begins |
| `PaulaEffects.InterruptsExactlyWhen` | src/core/audio.cpp:1736-2011 | for every state, attachment and setting: exactly when a call raises an interrupt, at most one |
| `PaulaEffects.RequestsExactlyWhen` | src/core/audio.cpp:1594-1628 | for every state: exactly when a call asks for a word, for the start of the sample, or through the event queue, and how it steps the length counter |
| `PaulaEffects.ModulatesExactlyWhen` | src/core/audio.cpp:1630-1647 | for every state and attachment: the next channel gets the word as its period at the end of a high byte, or as its volume where a word is loaded, and nothing otherwise; the last channel modulates nothing |
| `PaulaEffects.NextIsModulated` | src/core/audio.cpp:1630-1647 | and that is all that changes in the next channel |
| `PaulaEffects.IdleForgets` | src/core/audio.cpp:1407-1423 | a channel that a call leaves idle waits for nothing and has forgotten all pending checks; the flag of a reload survives only on a cycle-exact CPU with sound on where no hack cut the word short |
| `PaulaFlags.MemoryIs` | src/core/audio.cpp:1747-1837 | for every state and setting: what a call that leaves the channel running remembers of DMA switched off and on during a word, and of a reload whose interrupt is still to come |
| `PaulaFlags.DoneExactlyWhen` | src/core/audio.cpp:1736-2011 | the state machine never clears the flag of a new word itself; it tells its caller to, except exactly at the last cycle unit of a low byte by hand |
| `PaulaFlags.WordFlagAfter` | src/core/audio.cpp:2013-2020 | so the flag is up after a call through the wrapper exactly if it was up before that one call |
| `PaulaWords.LoadsExactlyWhen` | src/core/audio.cpp:1630-1663 | for every state and setting: a call moves AUDxDAT into dat2, once, or leaves all words alone, exactly when |
| `PaulaWords.WordAfter` | src/core/audio.cpp:2511-2611 | what every operation leaves in AUDxDAT and AUDxLEN, whatever update_audio and the state machine do in it |
| `PaulaWords.WordIsLast` | src/core/audio.cpp:2511-2611 | over any run AUDxDAT is the word of the last operation that put one there, so that is the word loaded next |
| `PaulaWords.RequestsTaken` | src/core/audio.cpp:1537-1593 | audio_dmal takes every request that stood and event_setdsr makes one; both leave all else alone |
| `PaulaRuns.HeardFromReset` | src/core/audio.cpp:1679-2011 | from reset, once any first period is written |
| `PaulaRuns.ResetStartsPlayback` | src/core/audio.cpp:2046-2077 | the promise holds from the first period written after reset, register value 0 included |
| `PaulaClaims.RunHolds` | src/core/audio.cpp:2382-2483 | the loop of update_audio keeps every claim made about a channel |
| `PaulaClaims.ServiceHolds` | src/core/audio.cpp:1736-2011 | so does a call of the state machine |
| `PaulaRuns.ApplyHolds` | src/core/audio.cpp:2511-2781 | so does every register write, event, vertical blank and change of preferences, under the condition that belongs to the claim |
| `PaulaClaims.ServiceStreams` | src/core/audio.cpp:1888-2008 | with DMA on a playing channel goes on playing unless a restart is pending |
| `PaulaRuns.UpdateSettles` | src/core/audio.cpp:2382-2483 | update_audio takes a pending hack if and only if it reaches the time of the channel, and leaves the enable flag that this decides |
| `PaulaHacks.CutsExactlyWhen` | src/core/audio.cpp:1747-1837 | for every operation and an unattached, unmodulated channel: the hacks cut one word short if the operation calls the state machine while one is pending, a condition on the state before, and none otherwise |
| `PaulaHacks.UncutExactlyWhen` | src/core/audio.cpp:1747-1837 | over any run of a channel that stays so: the condition of the playback results holds throughout if and only if no word has been cut short |
| `PaulaHacks.RefusedStart` | src/core/audio.cpp:1819-1832 | from reset, with the hacks on, for every period below 10 and one word by hand at any later time: the high byte is never heard |
| `PaulaHacks.RestartedWord` | src/core/audio.cpp:1753-1788 | from reset, with the hacks on, for every word, every period from 10 up and all times within the high byte: DMA on, off, 60 instructions, on again makes the low byte begin early |
| `PaulaLowPeriod.RaisedAfter64` | src/core/audio.cpp:1510-1525 | for every channel: calls of the hack count only in states 2 and 3 below 24 units with the interrupt disabled, and raise the period exactly when the count, in steps of 5 for a long sample, has reached 64 |
| `PaulaLowPeriod.RaisedExactlyWhen` | src/core/audio.cpp:1510-1525 | over any run in which a channel plays by DMA below 24 units with its interrupt disabled: the period stays until the operation that brings the weighted count of reloads and vertical blanks to 64, and that operation raises it to 3 * maxhpos units |
| `PaulaLowPeriod.ShortPeriodStays` | src/core/audio.cpp:2522-2528 | from reset, with DMA and a sample of one word, whatever the times between the words: up to 63 words the period is the one written |
| `PaulaLowPeriod.ShortPeriodIsRaised` | src/core/audio.cpp:2522-2528 | the 64th word raises it, and the next byte is held so long |
| `PaulaLowPeriod.LongPeriodsAreExact` | src/core/audio.cpp:1510-1525 | from 24 units up: over any run in which every write of the period stores p and no tracker-player hack is taken, every byte is held exactly p, whatever the interrupts, preferences and vertical blanks |
| `PaulaPlayback.OnlyHacksBreakPlayback` | src/core/audio.cpp:1747-1837 | for an unattached channel a call of the state machine, due or not, keeps that promise if and only if neither of the two tracker-player hacks is taken |
| `PaulaPlayback.ServiceSettles` | src/core/audio.cpp:1747-1837 | a call logs a cut word exactly if the condition of a hack held before it, and leaves the enable flag up to date unless it forced a restart |
| `PaulaPlayback.ServicePlays` | src/core/audio.cpp:1736-2011 | a call that takes no hack keeps it |
| `PaulaPlayback.HighBytePlays` | src/core/audio.cpp:1888-1898 | entering state 2 plays the high byte for one period |
| `PaulaPlayback.LowBytePlays` | src/core/audio.cpp:1935-1962 | entering state 3 plays the low byte for one period; without DMA one cycle unit of it is kept back in state 0x13 |
| `PaulaLoop.LoopCount` | src/core/audio.cpp:2522-2536 | N words after a reload cause exactly floor(N / L) reloads, L = 0 standing for 65536 |
| `PaulaLoop.LoopCountOverRuns` | src/core/audio.cpp:2511-2557 | the same over any run that keeps a playing channel on DMA with a fixed length and forces no restart, with polls, services and other operations in between: the channel plays on and is reloaded exactly floor(N / L) times |
| `PaulaLoop.InterruptsOverRuns` | src/core/audio.cpp:1978-1986 | over any such run one interrupt is raised, or still flagged, for every time the reload flag is set while clear |
| `PaulaLoop.InterruptsPerLoop` | src/core/audio.cpp:2511-2611 | N words then stand for exactly floor(N / L) interrupts if and only if no reload comes while the one before still waits for its interrupt |
| `PaulaLoop.CounterAfter` | src/core/audio.cpp:2522-2536 | the count and the counter from any starting value, through the 16-bit wrap |
| `PaulaLoop.ReloadIsFlagged` | src/core/audio.cpp:2585-2610 | on both CPU paths exactly a reload leaves intreq2 set |
| `PaulaLoop.FlagRaisesOneInterrupt` | src/core/audio.cpp:1978-1986 | the end of the word raises one interrupt for a flagged reload and clears the flag |
| `PaulaLoop.EveryLoadAsksForMore` | src/core/audio.cpp:1594-1628 | with DMA a call loads at most one word and with it asks for the next: a DMA slot, or the start of the loop when one word is left |
| `PaulaLoop.EveryManualWordInterrupts` | src/core/audio.cpp:1819-2004 | without DMA every word loaded raises one interrupt; the end of a word raises one and playback stops there exactly if the last one is still pending |
| `PaulaAverage.EverySampleIsMeanExactlyWhen` | src/core/audio.cpp:591-616 | with the accumulating interpolator, from reset over any run and for every channel, attached or not, hacks or not: every sample is the time-weighted mean of the level since the sample before if and only if the area under it fits 32 bits |
| `PaulaEngine.Truncates` | src/core/audio.cpp:603-616 | the mean is rounded towards zero: the remainder has the sign of the sum and is smaller than the time |
| `PaulaAverage.EverySampleIsMean` | src/core/audio.cpp:591-616 | with samples less than 2^18 - 2 time units apart (6.9 kHz and more) it always is |
| `PaulaAverage.ShortTimesFit` | src/core/audio.cpp:591-601 | the area does fit for less than 2^18 time units, six samples at 44.1 kHz |
| `PaulaAverage.FedSums` | src/core/audio.cpp:591-601 | the accumulators hold the area under the output and the time, cut to 32 bits |
| `PaulaDevice.AudioDevice.constructor` | src/core/audio.cpp:2046-2077 | audio_reset leaves the reset device from which the run results start |
| `PaulaDevice.AudioDevice.UpdateAudio` | src/core/audio.cpp:2368-2484 | the loop in place ends in the engine state of the model, from every reachable state |
| `PaulaDevice.AudioDevice.OnePass` | src/core/audio.cpp:2383-2475 | one iteration is one pass |
| `PaulaDevice.AudioDevice.FindBest` | src/core/audio.cpp:2384-2408 | the next event time |
| `PaulaDevice.AudioDevice.SamplePrehandler` | src/core/audio.cpp:591-636 | the prehandler loops over all channels |
| `PaulaDevice.AudioDevice.SampleHandler` | src/core/audio.cpp:603-616 | one value from every channel, accumulators drained |
| `PaulaDevice.AudioDevice.ServiceDue` | src/core/audio.cpp:2471-2475 | the service loop |
| `PaulaDevice.AudioDevice.StateChannel` | src/core/audio.cpp:2013-2020 | the wrapper that clears dat_written |
| `PaulaDevice.AudioDevice.StateMachine` | src/core/audio.cpp:1736-2011 | the state machine on the records in place, modulation of the next channel included |
| `PaulaDevice.AudioDevice.CheckDmaOff` | src/core/audio.cpp:1747-1788 | the DMA off and on check |
| `PaulaDevice.AudioDevice.StateIdle` | src/core/audio.cpp:1798-1839 | state 0 |
| `PaulaDevice.AudioDevice.StateStart` | src/core/audio.cpp:1840-1861 | state 1 |
| `PaulaDevice.AudioDevice.StatePrefetch` | src/core/audio.cpp:1862-1887 | state 5 |
| `PaulaDevice.AudioDevice.EndHigh` | src/core/audio.cpp:1899-1933 | the end of state 2 |
| `PaulaDevice.AudioDevice.EndLow` | src/core/audio.cpp:1963-2008 | the end of state 3 |
| `PaulaDevice.AudioDevice.Setdr` | src/core/audio.cpp:1594-1628 | setdr |
| `PaulaDevice.AudioDevice.Loaddat` | src/core/audio.cpp:1630-1682 | loaddat |
| `PaulaDevice.AudioDevice.AUDxPER` | src/core/audio.cpp:2685-2714 | the register write in place is the period operation of the model |
| `PaulaDevice.AudioDevice.AUDxLEN` | src/core/audio.cpp:2721-2726 | the length write |
| `PaulaDevice.AudioDevice.AUDxVOL` | src/core/audio.cpp:2733-2739 | the volume write |
| `PaulaDevice.AudioDevice.AUDxDAT` | src/core/audio.cpp:2559-2611 | the data write: what is stored at once, and the event at once or left for a cycle later |
| `PaulaDevice.AudioDevice.EventAudxdat` | src/core/audio.cpp:2511-2557 | the event on its packed argument |
| `PaulaDevice.ArgumentRoundTrip` | src/core/audio.cpp:2511-2589 | the event unpacks exactly what AUDxDAT packed |
| `PaulaDevice.AudioDevice.AudioLowPeriodHack` | src/core/audio.cpp:1510-1525 | the hack in place |
| `PaulaDevice.AudioDevice.AudioVsync` | src/core/audio.cpp:2776-2781 | the hack for all four channels |
| `PaulaDevice.AudioDevice.AudioStateMachine` | src/core/audio.cpp:2033-2044 | every channel polled after catching up |
| `PaulaDevice.AudioDevice.AudioDmal` | src/core/audio.cpp:1537-1549 | the slots asked for are reported and taken |
| `PaulaDevice.MaskTellsRequests` | src/core/audio.cpp:1540-1547 | each channel's two requests can be read back from the mask |
| `StereoDelay.DelayIsExact` | src/core/audio.cpp:532-552 | for every delay preference, over any run each frame is mixed with the one put exactly 2^delay - 1 frames earlier, each side with the other |
| `StereoDelay.OutputIsMean` | src/core/audio.cpp:532-552 | with base value 0, over any run of signed frames that fills the line, both output words are the low 16 bits of the weighted mean, which fits 16 bits |
| `StereoDelay.MaskIs` | src/core/audio.cpp:2222-2231 | the delay is one frame for the preference 1 and twice as many and one more from one value to the next |
| `StereoDelay.AndWraps` | src/core/audio.cpp:541-541 | the bitwise step of the saved pointer goes from the mask back to 0, for every mask of the form 2^k - 1 |
| `StereoDelay.MaskedWraps` | src/core/audio.cpp:541-541 | the remainder the model uses makes the same step |
| `StereoDelay.MixIsMean` | src/core/audio.cpp:537-548 | for every pair of signed samples the unsigned 32-bit expression gives the low 16 bits of the floored mean |
| `StereoDelay.MeanFits` | src/core/audio.cpp:2225-2226 | weights 16 - sep and 16 + sep: the mean of 16-bit samples is a 16-bit sample |
| `StereoDelay.SlotHolds` | src/core/audio.cpp:523-541 | what any slot of the line holds after any run |
| `StereoDelay.SecondWordLacksBase` | src/core/audio.cpp:537-551 | the base value goes back only on the first word: the second is based like it if and only if the base is 0 in 16 bits |
| `StereoDelay.Mixer.constructor` | src/core/audio.cpp:2222-2231 | the mask is 2^delay - 1 for the delay preference, and 0 for none |
| `StereoDelay.Mixer.PutSoundWordRight` | src/core/audio.cpp:523-530 | the right word is saved, or emitted when the mixer is off |
| `StereoDelay.Mixer.PutSoundWordLeft` | src/core/audio.cpp:532-555 | the left word completes the frame in place |
| `AudioRing.BytesArriveInOrder` | od-leopard/leuae-audio.c:74-108 | in every interleaving of submit and callback, byte copy by byte copy: the bytes taken are the accepted bytes in order, and the two indices are equal exactly when the ring is empty |
| `AudioRing.BuffersCarryTheStream` | od-leopard/leuae-audio.c:123-148 | cutting the silence off the buffers handed over and joining them gives the accepted bytes |
| `AudioCalls.CallbackTakes` | od-leopard/leuae-audio.c:123-148 | for every run of both threads before and after: a callback that begins with a backlog puts exactly the smaller of that and its size into the buffer, the oldest bytes in order, and then silence, once it has had a step for each byte and a last one |
| `AudioCalls.SubmitGives` | od-leopard/leuae-audio.c:240-268 | a submit that begins with a backlog, the bytes of a running callback included, adds exactly the first bytes that fit into 32764 minus the backlog, in whole frames |
| `AudioRing.IndicesStayAligned` | od-leopard/leuae-audio.c:251-267 | with buffers of whole frames both indices stay on frame boundaries |
| `AudioRing.ExecKeepsInv` | od-leopard/leuae-audio.c:74-150 | no byte still to be read is overwritten, after any schedule |
| `AudioRing.PutIsTwoCopies` | od-leopard/leuae-audio.c:82-94 | byte-wise modular copying is a straight copy to the end of the ring and another from its start |
| `AudioRing.StepsAddUp` | od-leopard/leuae-audio.c:82-94 | the byte steps of the concurrent model add up to that copy |
| `AudioRing.Ring.RingWrite` | od-leopard/leuae-audio.c:82-94 | ring_write in place is the modular copy |
| `AudioRing.Ring.RingRead` | od-leopard/leuae-audio.c:96-108 | ring_read returns the modular stretch |
| `AudioRing.Ring.SubmitFrames` | od-leopard/leuae-audio.c:240-268 | the frames accepted and where they went |
| `AudioRing.Ring.FillBuffer` | od-leopard/leuae-audio.c:123-148 | a buffer is a stretch of the ring followed by silence |
| `DynArray.AmortisedGrowth` | include/tinyxml2.h:302-316 | over any run of pushes, pops and clears fewer than two elements are copied per element pushed |
| `DynArray.CopiesExactlyWhen` | include/tinyxml2.h:302-316 | elements are copied, and the capacity becomes twice the size asked for, exactly when a push does not fit |
| `DynArray.SwapRemoved` | include/tinyxml2.h:281-286 | the elements kept are the multiset without the one removed |
| `DynArray.DynArray.EnsureCapacity` | include/tinyxml2.h:302-316 | room for the capacity asked for, contents kept, cost accounted |
| `DynArray.DynArray.Push` | include/tinyxml2.h:225-230 | the sequence grows by the element at its end |
| `DynArray.DynArray.PushArr` | include/tinyxml2.h:232-239 | room for more at the end, earlier elements kept |
| `DynArray.DynArray.Pop` | include/tinyxml2.h:241-245 | the last element comes off |
| `DynArray.DynArray.PopArr` | include/tinyxml2.h:247-250 | the last elements come off |
| `DynArray.DynArray.SwapRemove` | include/tinyxml2.h:281-286 | the last element takes the place of the one removed |
| `DynArray.DynArray.Clear` | include/tinyxml2.h:221-223 | the sequence is empty, the memory kept |
| `MemPool.MemPoolT.Structure` | include/tinyxml2.h:354-411 | in every valid pool the free list is acyclic and repeats nothing, free and live items are exactly the items of the blocks, the counters tell live count and high-water mark |
| `MemPool.MemPoolT.Alloc` | include/tinyxml2.h:374-398 | never a live item: the first free one, or the first of a new block; the pool stays valid |
| `MemPool.MemPoolT.Free` | include/tinyxml2.h:400-411 | a live item becomes the first free one, null changes nothing |
| `MemPool.MemPoolT.Clear` | include/tinyxml2.h:354-366 | no blocks, no items, all counters zero |
| `MemPool.MemPoolT.Refill` | include/tinyxml2.h:375-386 | an empty free list is replaced by the items of one new block |
| `MemPool.MemPoolT.NewBlock` | include/tinyxml2.h:377-384 | the links of a new block run through its items in order |
| `MemPool.MemPoolT.ClientWrites` | include/tinyxml2.h:443-446 | a client may write anything over the link of an item it holds |
| `MemPool.FirstTaken` | include/tinyxml2.h:387-394 | taking the first free item keeps the books: partition, live count, high-water mark |
| `MemPool.FirstReturned` | include/tinyxml2.h:400-411 | so does giving a live item back |
| `MemPool.HighWaterIs` | include/tinyxml2.h:391-394 | the high-water mark is reached and never exceeded |
| `RelocTable.RoundTripExactlyWhen` | src/core/autoconf.cpp:509-527 | the guest reads back base and addresses if and only if no address is written as a zero: the start of the bank, or address 0 outside it |
| `RelocTable.NothingLostOrRepeated` | src/core/autoconf.cpp:465-527 | a run of recordings reaches the guest whole and without duplicates |
| `RelocTable.StopsWhenFull` | src/core/autoconf.cpp:469-472 | the program aborts exactly at a call made after 1024 different addresses, even for an address already recorded |
| `RelocTable.RecordsEachOnce` | src/core/autoconf.cpp:473-479 | otherwise every address given is recorded once |
| `RelocTable.Partition` | src/core/autoconf.cpp:511-526 | the two lists hold every recorded address once, on its side of the bank test |
| `RelocTable.SideOf` | src/core/autoconf.cpp:511-526 | the side of an address, in numbers, with the wrap at the end of the last bank |
| `RelocTable.KeepsOrder` | src/core/autoconf.cpp:511-526 | the order of recording is kept on both sides |
| `RelocTable.WordsReadBack` | reference/deferred/root/filesys.asm:4243-4253 | the guest's first loop returns the addresses behind the 16-bit list, or stops early exactly for the start of the bank |
| `RelocTable.LongsReadBack` | reference/deferred/root/filesys.asm:4256-4263 | the guest's second loop returns the 32-bit list, or stops early exactly for address 0 |
| `RelocTable.RomRelocations.SaveRomAbsolute` | src/core/autoconf.cpp:465-480 | ignored after the move, aborted when full, skipped as a duplicate, or appended |
| `RelocTable.RomRelocations.CountBytes` | src/core/autoconf.cpp:498-506 | the first pass |
| `RelocTable.RomRelocations.WriteTable` | src/core/autoconf.cpp:498-527 | the second pass writes exactly the bytes the first one counted, and they are the table |
| `RelocTable.RomRelocations.BootRomCopy` | src/core/autoconf.cpp:489-536 | the modes, the write-enable flag and what the guest is given |
| `RomArea.KeepsRomExactlyWhen` | src/core/autoconf.cpp:223-346 | with writes disabled an access keeps every byte outside the windows, whatever is in the area, if and only if it is not a long write to the last word of a window |
| `RomArea.RunKeepsRom` | src/core/autoconf.cpp:147-346 | over any run without such a write nothing outside the windows changes |
| `RomBytes.WritesAre` | src/core/autoconf.cpp:223-346 | every write at any address, inside and outside the windows: if it takes effect the bytes of the number are stored, the highest first, a word at a lock as zero, and no other byte changes; otherwise none does |
| `RomBytes.ReadsAre` | src/core/autoconf.cpp:147-221 | every read at any address: the stored number and no change, but for a free lock that is taken and a status byte that is brought up to date |
| `RomBytes.WriteReadsBack` | src/core/autoconf.cpp:147-346 | a number written is read back, cut to its size, where no lock or status byte intervenes |
| `RomBytes.LastStays` | src/core/autoconf.cpp:147-346 | over any run a byte is the one that the last access to touch it has left |
| `RomBytes.WrittenStays` | src/core/autoconf.cpp:223-346 | so the area holds a number written until one of its bytes is touched again |
| `RomArea.AlignedNeverSpills` | src/core/autoconf.cpp:330-346 | 4-aligned long writes never are such writes |
| `RomArea.AtMostOneHolder` | src/core/autoconf.cpp:159-309 | over any run of clients that write the lock word only to release, each trap slot has at most one holder and is locked exactly while it has one |
| `RomArea.TurnKeepsLock` | src/core/autoconf.cpp:172-181 | one turn of one client keeps lock bit and holder together |
| `RomArea.LockByte` | src/core/autoconf.cpp:172-309 | a word read takes the lock and returns 0 exactly when it was free, a word write frees it, nothing else that leaves the word alone changes it |
| `RomArea.RtArea.ReadLong` | src/core/autoconf.cpp:147-158 | rtarea_lget on the array |
| `RomArea.RtArea.ReadWord` | src/core/autoconf.cpp:159-185 | rtarea_wget with its lock attempt |
| `RomArea.RtArea.ReadByte` | src/core/autoconf.cpp:186-221 | rtarea_bget with its status bytes |
| `RomArea.RtArea.WriteByte` | src/core/autoconf.cpp:234-241 | rtarea_bput |
| `RomArea.RtArea.WriteWord` | src/core/autoconf.cpp:278-313 | rtarea_wput with its unlock |
| `RomArea.RtArea.WriteLong` | src/core/autoconf.cpp:330-346 | rtarea_lput |
| `PageSplit.CrossingTestIsExact` | include/mmu_common.h:112-115 | for every 32-bit address, page size and access size: the one-bit test holds if and only if the access leaves its page, also across the wrap to address 0 |
| `PageSplit.TagsAreExact` | include/cpummu.h:314-316 | two accesses have the same cache tag if and only if page and mode agree, and no tag is the empty mark |
| `PageSplit.FlushedIs` | src/core/cpummu.cpp:348-367 | an entry is gone after a flush exactly for the address of all ones or if it is tagged with the page and mode |
| `PageSplit.OnePageGet` | include/cpummu.h:229-232 | one translation reads what translating every byte reads, faults included |
| `PageSplit.OnePagePut` | include/cpummu.h:387-411 | one translation writes what translating every byte writes |
| `PageSplit.GetInParts` | src/core/cpummu.cpp:952-983 | reading in parts, up to a fault |
| `PageSplit.PutInParts` | src/core/cpummu.cpp:1098-1119 | writing in parts: the bytes before a fault have been written |
| `PageSplit.Mmu.UaeMmu040GetLong` | include/cpummu.h:712-717 | the split long read equals byte-wise translated access for every address, table and cache content |
| `PageSplit.Mmu.UaeMmu040GetWord` | include/cpummu.h:718-723 | the same for words |
| `PageSplit.Mmu.UaeMmu040PutLong` | include/cpummu.h:740-746 | the split long write equals byte-wise writing up to the first fault |
| `PageSplit.Mmu.UaeMmu040PutWord` | include/cpummu.h:729-735 | the same for words |
| `PageSplit.Mmu.GetLongUnaligned` | src/core/cpummu.cpp:952-983 | two words at an even address, four bytes at an odd one |
| `PageSplit.Mmu.PutLongUnaligned` | src/core/cpummu.cpp:1098-1119 | the same for writing |
| `PageSplit.Mmu.Lookup` | include/cpummu.h:309-333 | a cache hit or a table search gives the translation of the tables and leaves it in the entry of the page; a hit changes nothing |
| `PageSplit.Mmu.AddCache` | src/core/cpummu.cpp:803-833 | page, mode and frame go into the entry chosen by the low eight bits of the tag, never the last one, and every entry agrees with the tables |
| `PageSplit.Mmu.FlushShortcutCache` | src/core/cpummu.cpp:348-367 | exactly the entries of the page and mode lose their tag; for the address 0xFFFFFFFF both caches are emptied |
| `PageSplit.Mmu.ChangePage` | src/core/cpummu.cpp:1415-1437 | changing one page's translation and flushing it keeps both caches right |
| `BankSplit.AddressSpace.GetLongCompatible` | include/memory.h:575-589 | for every address the parts never cross a bank and form the byte-wise big-endian number, wrap included |
| `BankSplit.AddressSpace.GetWordCompatible` | include/memory.h:590-598 | the same for words |
| `BankSplit.AddressSpace.PutLongCompatible` | include/memory.h:714-726 | the parts never cross a bank and store the bytes one address at a time |
| `BankSplit.AddressSpace.PutWordCompatible` | include/memory.h:727-735 | the same for words |
| `BankSplit.GetAfterPut` | include/memory.h:575-735 | a get after a put returns the value and every other address keeps its byte |
| `BankSplit.StoredAt` | include/memory.h:714-735 | what byte-wise storing leaves at every address |
| `BankSplit.LongiIsWhole` | include/memory.h:604-613 | the parts of the instruction fetch join to the long that byte-wise access reads |
| `BankSplit.LongiCrossesExactlyWhen` | include/memory.h:604-613 | the instruction fetch variant crosses a bank if and only if the address is odd and in the last three bytes of a bank |

## Left out

- Extra audio streams, CD audio, AHI and sound boards: they are driven by host callbacks.
- `sound_volcnt` mode, the RC and LED filters, the FIR tables' contents, the crux and rh interpolators: floating-point signal shaping.
- Sample ripper, WAV output, debug and `SOUNDSTUFF` branches, `save_audio` and `restore_audio`.
- AUDxLCH, AUDxLCL and the pointer hack around them, the exact position passed to delayed DSR events: they decide which address DMA fetches from, not what the channel does with the words.
- The counter of the low period hack is unbounded in the model.
- `audio_activate`, `audio_deactivate`, `schedule_audio` and the event queue itself: the model lets update_audio and the delayed events come at any time, in any order.
- Rounding of `float`: the sample clock is a real number.
- PaulaRuns.EveryByteIsHeldForItsPeriod: for a channel that is not attached. While the channel before it modulates its period, a start by hand counts as short whatever the period.
- PaulaLevel.LevelIsHeard: for a channel that is not attached and not muted, over runs without a tracker-player hack, as the playback results; `PaulaBytes.SampleIsSignedByte` holds for every channel and every call.
- PaulaSteps.ChangesAreSpaced: for a channel that is not attached; switching an attachment on and off changes the level at any time.
- PaulaAverage.EverySampleIsMeanExactlyWhen: for sample distances below 2^31 - 2 time units, more than a second of emulated time.
- AccessLog.FaultsAreInvisible: for instructions whose stored intermediate values are the same in every attempt; `AccessLog.FaultsLeaveOnePass` needs no such condition.
- The 68030's read-modify-write, MOVEM and FMOVEM restarts, accesses split by alignment, the flags `ismoves030` and `islrmw030`, and the return from exception that completes the faulted access itself: the model lets the next attempt do it (the saved log and index come back from the stack frame).
- AccessLog.Mmu030.Run: for instructions of at most ten accesses, the size of mmu030_ad; the specification has no such bound. The exception between a fault and its restart is left out.
- StereoDelay.Mixer.constructor: for delays up to 10, which is what the saved words hold; the source does not check the preference.
- CommPipe models one writer and one reader; the union of pointer and integers in a slot is its bit pattern.
- Memory orders weaker than sequential consistency, and the compiler's freedom with the plain fields of the pipe and the ring.
- memcpy and memset are loops over elements in ascending order.
- MemPool.MemPoolT.Clear: deleting blocks is forgetting them; items a client still holds are outside the model. The list of blocks is a sequence rather than a DynArray, and the debug fill of freed items is not modelled.
- DynArray.DynArray.PushArr: the caller keeps sizes below INT_MAX / 2 as the source's assertions demand, and a first call with 0 elements on an empty array is excluded as there. The initial pool and heap memory are one array, and deleting is forgetting.
- RomArea: `call_hardware_trap`, semaphores, wake-ups and the interrupt flags change none of the modelled bytes; whether the host releases a slot itself is not modelled.
- RelocTable.RomRelocations.BootRomCopy: the board allocator's memory is a fresh array of exactly the size asked for; the guest's use of the decoded addresses (adding the displacement) is not modelled.
- PageSplit: transparent translation, a disabled MMU, access rights beyond a fault, the cache state that the write path takes from the read array, and the fault address kept for the exception frame. The table search's own cache is any that flushes the page before it fills.
- BankSplit: what a bank does with an access inside it is big-endian memory.
- The XML node, printer and parser declarations of `include/tinyxml2.h`, the blitter tables, the input queue, and all host glue.
